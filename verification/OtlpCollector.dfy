/** The receiver as it runs: module-level tables changed in place by every event (src/otlp.py). Each method
    is held to the state machine of module Otlp. */
module OtlpCollector {
  import opened Basics
  import opened Requests
  import opened Correlation
  import opened Otlp
  import OtlpFates
  import OtlpIsolation
  import OtlpReferences

  // ---------------------------------------------------------------- loops over one list of waiting calls

  predicate FirstAt(ws: seq<Waiting>, id: string, i: nat) {
    i < |ws| && ws[i].id == id && forall j :: 0 <= j < i ==> ws[j].id != id
  }

  /** What the list functions mean at the first entry with the id. */
  lemma {:induction false} NotedAtFirst(ws: seq<Waiting>, w: Waiting, i: nat)
    requires FirstAt(ws, w.id, i)
    ensures Noted(ws, w) == ws[i := Redelivered(ws[i], w)]
  {
    if i == 0 {
      assert Noted(ws, w) == [Redelivered(ws[0], w)] + ws[1..];
    } else {
      NotedAtFirst(ws[1..], w, i - 1);
      assert ws[0].id != w.id;
      assert Noted(ws, w) == [ws[0]] + ws[1..][i - 1 := Redelivered(ws[i], w)];
    }
  }

  lemma {:induction false} TimedAtFirst(ws: seq<Waiting>, id: string, durationMs: int, i: nat)
    requires FirstAt(ws, id, i)
    ensures Timed(ws, id, durationMs) == ws[i := ws[i].(durationMs := Some(durationMs))]
  {
    if i > 0 { TimedAtFirst(ws[1..], id, durationMs, i - 1); }
  }

  lemma {:induction false} FoundAtFirst(ws: seq<Waiting>, id: string, i: nat)
    requires FirstAt(ws, id, i)
    ensures Find(ws, id) == Some(ws[i])
  {
    if i > 0 {
      assert ws[0].id != id;
      FoundAtFirst(ws[1..], id, i - 1);
    }
  }

  lemma {:induction false} WithoutFirst(ws: seq<Waiting>, id: string, i: nat)
    requires FirstAt(ws, id, i)
    ensures Without(ws, id) == ws[..i] + ws[i + 1..]
  {
    if i > 0 {
      assert ws[0].id != id;
      WithoutFirst(ws[1..], id, i - 1);
      assert ws[1..][..i - 1] == ws[1..i] && ws[1..][i..] == ws[i + 1..];
      assert ws[..i] == [ws[0]] + ws[1..i];
    }
  }

  lemma {:induction false} NotedAtEnd(ws: seq<Waiting>, w: Waiting)
    requires forall j :: 0 <= j < |ws| ==> ws[j].id != w.id
    ensures Noted(ws, w) == ws + [w]
  {
    if ws != [] { NotedAtEnd(ws[1..], w); }
  }

  method IndexOf(ws: seq<Waiting>, id: string) returns (i: Option<nat>)
    ensures i.Some? ==> FirstAt(ws, id, i.value)
    ensures i.None? ==> forall j :: 0 <= j < |ws| ==> ws[j].id != id
  {
    for n := 0 to |ws|
      invariant forall j :: 0 <= j < n ==> ws[j].id != id
    {
      if ws[n].id == id { return Some(n); }
    }
    return None;
  }

  /** `_buffer_tool_call`. */
  method BufferToolCall(buffer: Buffer, key: string, w: Waiting) returns (b: Buffer)
    ensures b == buffer[key := Noted(At(buffer, key), w)]
  {
    var entries := At(buffer, key);
    var i := IndexOf(entries, w.id);
    if i.Some? {
      NotedAtFirst(entries, w, i.value);
      entries := entries[i.value := Redelivered(entries[i.value], w)];
    } else {
      NotedAtEnd(entries, w);
      entries := entries + [w];
    }
    b := buffer[key := entries];
  }

  /** `_buffer_tool_duration`: attaches the duration to a waiting call and reports whether there was one. */
  method BufferToolDuration(buffer: Buffer, key: string, id: string, durationMs: int) returns (b: Buffer, found: bool)
    ensures found <==> Holds(At(buffer, key), id)
    ensures b == if found then buffer[key := Timed(At(buffer, key), id, durationMs)] else buffer
  {
    var entries := At(buffer, key);
    var i := IndexOf(entries, id);
    b, found := buffer, i.Some?;
    if found {
      TimedAtFirst(entries, id, durationMs, i.value);
      assert Holds(entries, id);
      b := buffer[key := entries[i.value := entries[i.value].(durationMs := Some(durationMs))]];
    }
  }

  method PopFirst(ws: seq<Waiting>, id: string) returns (rest: seq<Waiting>, popped: Option<Waiting>)
    ensures popped == Find(ws, id)
    ensures popped.Some? ==> rest == Without(ws, id)
  {
    var i := IndexOf(ws, id);
    if i.None? { return ws, None; }
    FoundAtFirst(ws, id, i.value);
    WithoutFirst(ws, id, i.value);
    rest, popped := ws[..i.value] + ws[i.value + 1..], Some(ws[i.value]);
  }

  /** `_pop_buffered_tool`. */
  method PopBufferedTool(buffer: Buffer, key: string, id: string) returns (b: Buffer, popped: Option<Waiting>)
    ensures popped == Find(At(buffer, key), id)
    ensures b == if popped.Some? then Put(buffer, key, Without(At(buffer, key), id)) else buffer
  {
    var rest;
    rest, popped := PopFirst(At(buffer, key), id);
    b := if popped.Some? then Put(buffer, key, rest) else buffer;
  }

  lemma {:induction false} SinceSnoc(ws: seq<Waiting>, w: Waiting, start: int, late: bool)
    ensures Since(ws + [w], start, late) == Since(ws, start, late) + (if (w.ts >= start) == late then [w] else [])
  {
    if ws == [] {
      assert [w][1..] == [];
    } else {
      assert (ws + [w])[1..] == ws[1..] + [w];
      SinceSnoc(ws[1..], w, start, late);
    }
  }

  lemma CallsForSnoc(u: string, ws: seq<Waiting>, w: Waiting, ref: UsageRef, source: string, kind: Kind, key: string)
    ensures CallsFor(u, ws + [w], ref, source, kind, key) == CallsFor(u, ws, ref, source, kind, key) +
            [CallEntry(u, CallFor(u, w, Some(ref), ref.sessionId, source), Slot(kind, key, w.id))]
  {
    assert (ws + [w])[..|ws|] == ws;
  }

  /** The recording loop over a list of calls. */
  method RecordCalls(log: Log, u: string, ws: seq<Waiting>, ref: UsageRef, source: string, kind: Kind, key: string)
    returns (r: Log)
    ensures r == log + CallsFor(u, ws, ref, source, kind, key)
  {
    r := log;
    for n := 0 to |ws|
      invariant r == log + CallsFor(u, ws[..n], ref, source, kind, key)
    {
      assert ws[..n + 1] == ws[..n] + [ws[n]];
      CallsForSnoc(u, ws[..n], ws[n], ref, source, kind, key);
      r := r + [CallEntry(u, CallFor(u, ws[n], Some(ref), ref.sessionId, source), Slot(kind, key, ws[n].id))];
    }
    assert ws[..|ws|] == ws;
  }

  /** The loop of `_flush_claude_tools`: early calls are recorded, late ones kept. */
  method FlushEarly(log: Log, u: string, ws: seq<Waiting>, ref: UsageRef, startMs: int, key: string)
    returns (remaining: seq<Waiting>, r: Log)
    ensures remaining == Since(ws, startMs, true)
    ensures r == log + CallsFor(u, Since(ws, startMs, false), ref, "claude-code", ClaudeTools, key)
  {
    remaining, r := [], log;
    ghost var early: seq<Waiting> := [];
    for n := 0 to |ws|
      invariant remaining == Since(ws[..n], startMs, true) && early == Since(ws[..n], startMs, false)
      invariant r == log + CallsFor(u, early, ref, "claude-code", ClaudeTools, key)
    {
      var w := ws[n];
      assert ws[..n + 1] == ws[..n] + [w];
      SinceSnoc(ws[..n], w, startMs, true);
      SinceSnoc(ws[..n], w, startMs, false);
      if w.ts >= startMs {
        remaining := remaining + [w];
      } else {
        CallsForSnoc(u, early, w, ref, "claude-code", ClaudeTools, key);
        r := r + [CallEntry(u, CallFor(u, w, Some(ref), ref.sessionId, "claude-code"), Slot(ClaudeTools, key, w.id))];
        early := early + [w];
      }
    }
    assert ws[..|ws|] == ws;
  }

  // ---------------------------------------------------------------- eviction loops

  /** Collects the stale keys of a table, then deletes them one by one. */
  method DropKeys<V>(table: map<string, V>, stale: set<string>) returns (t: map<string, V>)
    requires stale <= table.Keys
    ensures t == table - stale
  {
    t := table;
    var todo := stale;
    while todo != {}
      invariant todo <= stale && t == table - (stale - todo)
      decreases todo
    {
      var k :| k in todo;
      todo := todo - {k};
      t := t - {k};
    }
  }

  method EvictStaleLists(buffer: Buffer, now: int) returns (b: Buffer)
    ensures b == EvictBuffer(buffer, now)
  {
    b := DropKeys(buffer, set k | k in buffer && !IsFreshList(buffer[k], now));
  }

  method EvictStaleRest(s: State, now: int)
    returns (turns: map<string, Turn>, lastUsage: map<string, LastUsage>, prompts: Prompts)
    ensures turns == EvictTurns(s.turns, now)
    ensures lastUsage == EvictLastUsage(s.lastUsage, now)
    ensures prompts == EvictPrompts(s.prompts, now)
  {
    turns := DropKeys(s.turns, set k | k in s.turns && now - s.turns[k].ts > STALE_MICROS);
    lastUsage := DropKeys(s.lastUsage, set k | k in s.lastUsage && now / 1000 - s.lastUsage[k].tsMs > STALE_MS);
    prompts := DropKeys(s.prompts, set k | k in s.prompts && now - s.prompts[k].ts > STALE_MICROS);
  }

  /** The records of live services, up to the limit, and how many are past it. */
  method AcceptRecords(records: seq<LogRecord>, limit: nat) returns (accepted: seq<LogRecord>, rejected: nat)
    ensures accepted == Accepted(records, limit) && rejected + |accepted| == |Live(records)|
  {
    accepted, rejected := [], 0;
    for n := 0 to |records|
      invariant accepted == Live(records[..n])
    {
      assert records[..n + 1][..n] == records[..n];
      if !IsRetired(records[n].service) { accepted := accepted + [records[n]]; }
    }
    assert records[..|records|] == records;
    if |accepted| > limit {
      rejected := |accepted| - limit;
      accepted := accepted[..limit];
    }
  }

  // ---------------------------------------------------------------- the receiver

  class Collector {
    var claude: Buffer
    var codex: Buffer
    var message: Buffer
    var turns: map<string, Turn>
    var lastUsage: map<string, LastUsage>
    var prompts: Prompts
    var log: Log
    const env: Env
    const maxRecords: nat
    /** Every post received so far. */
    ghost var history: seq<Post>

    /** The tables are what the posts so far, all of proper users, have made of empty ones. */
    ghost predicate Valid()
      reads this
    {
      (forall k :: 0 <= k < |history| ==> IsUser(history[k].user)) && Current() == Run(EMPTY, env, maxRecords, history)
    }

    function Current(): State
      reads this
    {
      State(claude, codex, message, turns, lastUsage, prompts, log)
    }

    constructor (env: Env, maxRecords: nat)
      ensures Valid() && history == [] && log == [] && this.env == env && this.maxRecords == maxRecords
    {
      history := [];
      claude, codex, message, turns, lastUsage, prompts, log := map[], map[], map[], map[], map[], map[], [];
      this.env, this.maxRecords := env, maxRecords;
    }

    method EvictStale(now: int)
      modifies this
      ensures Current() == Evict(old(Current()), now)
      ensures history == old(history)
    {
      claude := EvictStaleLists(claude, now);
      codex := EvictStaleLists(codex, now);
      message := EvictStaleLists(message, now);
      turns, lastUsage, prompts := EvictStaleRest(Current(), now);
    }

    method RecordPromptEvent(user: string, now: int, r: LogRecord)
      modifies this`prompts
      ensures Current() == NotePrompt(old(Current()), user, now, r)
    {
      var key := PromptKey(r, OrEmpty(SessionOf(r)));
      if r.attrs.promptLength.Some? && IsPromptEvent(EventName(r)) && key.Some? {
        var k := Scoped(user, key.value);
        var values := if k in prompts then prompts[k].values else [];
        prompts := prompts[k := Queue(now, values + [r.attrs.promptLength.value])];
      }
    }

    method ConsumeForUsageEvent(user: string, r: LogRecord, session: string) returns (length: int)
      modifies this`prompts
      ensures length == PromptLengthFor(old(Current()), user, r, session)
      ensures Current() == ConsumePrompt(old(Current()), user, r, session)
    {
      if r.attrs.promptLength.Some? { return r.attrs.promptLength.value; }
      var key := PromptKey(r, session);
      if key.None? { return 0; }
      var k := Scoped(user, key.value);
      if k !in prompts { return 0; }
      var values := prompts[k].values;
      if values == [] {
        prompts := prompts - {k};
        return 0;
      }
      length := values[0];
      prompts := if |values| == 1 then prompts - {k} else prompts[k := prompts[k].(values := values[1..])];
    }

    method HandleToolEvent(user: string, r: LogRecord)
      modifies this`claude, this`codex, this`message, this`log
      ensures Current() == HandleTool(old(Current()), user, r)
    {
      var name := EventName(r);
      if name == "tool_decision" && r.service == "claude-code" {
        if Present(r.attrs.promptDotId) {
          claude := BufferToolCall(claude, Scoped(user, r.attrs.promptDotId.value),
            Decided(r, r.attrs.toolUseId, None));
        }
      } else if name == "tool_result" && r.service == "claude-code" {
        HandleClaudeResult(user, r);
      } else if name == "codex.tool_decision" && IsCodex(r.service) {
        if OrEmpty(r.attrs.toolName) != "exec" && Present(r.attrs.conversationId) {
          codex := BufferToolCall(codex, Scoped(user, r.attrs.conversationId.value), Decided(r, r.attrs.callId, None));
        }
      } else if name == "codex.tool_result" && IsCodex(r.service) {
        HandleCodexResult(user, r);
      } else if IsMessageService(r.service) && name == r.service + ".tool_decision" {
        if Present(r.attrs.messageId) && Present(r.attrs.toolName) {
          message := BufferToolCall(message, Scoped(user, r.attrs.messageId.value),
            Decided(r, r.attrs.callId, r.attrs.durationMs));
        }
      }
    }

    method HandleClaudeResult(user: string, r: LogRecord)
      modifies this`claude, this`log
      ensures Current() == ClaudeResult(old(Current()), user, r)
    {
      if Present(r.attrs.promptDotId) && Present(r.attrs.toolUseId) {
        var key, id := Scoped(user, r.attrs.promptDotId.value), r.attrs.toolUseId.value;
        var popped;
        claude, popped := PopBufferedTool(claude, key, id);
        if popped.Some? {
          var last := if key in lastUsage then Some(lastUsage[key].ref) else None;
          var sid := if last.Some? && Present(last.value.sessionId) then last.value.sessionId else SessionOf(r);
          var w := popped.value.(durationMs := r.attrs.durationMs);
          log := log + [CallEntry(user, CallFor(user, w, last, sid, "claude-code"), Slot(ClaudeTools, key, id))];
        }
      }
    }

    method HandleCodexResult(user: string, r: LogRecord)
      modifies this`codex, this`log
      ensures Current() == CodexResult(old(Current()), user, r)
    {
      var id := OrEmpty(r.attrs.callId);
      if r.attrs.durationMs.Some? {
        var matched := false;
        if Present(r.attrs.conversationId) {
          codex, matched := BufferToolDuration(codex, Scoped(user, r.attrs.conversationId.value), id,
            r.attrs.durationMs.value);
        }
        if !matched && id != "" {
          log := log + [DurationEntry(user, Scoped(user, id), "codex", r.attrs.durationMs.value)];
        }
      }
    }

    /** `record_usage` followed by the return value the handlers branch on. */
    method RecordUsage(user: string, q: Request) returns (ref: Option<UsageRef>)
      modifies this`log
      ensures ref == RowOf(env, old(log), user, q)
      ensures Current() == Say(old(Current()), UsageEntry(user, q, ref))
    {
      ref := RowOf(env, log, user, q);
      log := log + [UsageEntry(user, q, ref)];
    }

    /** `_flush_claude_tools`. */
    method FlushClaudeTools(user: string, key: string, ref: UsageRef, startMs: int)
      modifies this`claude, this`log
      ensures Current() == Flushed(old(Current()), user, key, ref, startMs)
    {
      if key in claude {
        var remaining;
        remaining, log := FlushEarly(log, user, claude[key], ref, startMs, key);
        claude := Put(claude, key, remaining);
      }
    }

    method HandleClaudeUsage(user: string, ip: Option<string>, r: LogRecord)
      modifies this
      ensures Current() == ClaudeUsage(old(Current()), env, user, ip, r)
      ensures history == old(history)
    {
      var length := ConsumeForUsageEvent(user, r, OrEmpty(SessionOf(r)));
      var q := ClaudeRequest(env, user, ip, r, length);
      var ref := RecordUsage(user, q);
      if ref.Some? && Present(r.attrs.promptDotId) {
        var key := Scoped(user, r.attrs.promptDotId.value);
        FlushClaudeTools(user, key, ref.value, WindowStartMs(q));
        lastUsage := lastUsage[key := LastUsage(ref.value, q.ts / 1000)];
      }
    }

    method HandleCodexState(user: string, now: int, r: LogRecord)
      modifies this`turns
      ensures Current() == CodexState(old(Current()), user, now, r)
    {
      if Present(r.attrs.conversationId) {
        var key := Scoped(user, r.attrs.conversationId.value);
        turns := turns[key := NextTurn(if key in turns then Some(turns[key]) else None, now, r)];
      }
    }

    method HandleCodexUsage(user: string, ip: Option<string>, r: LogRecord)
      modifies this
      ensures Current() == CodexUsage(old(Current()), env, user, ip, r)
      ensures history == old(history)
    {
      if !CompletesCodex(r) { return; }
      var known, key := Present(r.attrs.conversationId), Scoped(user, OrEmpty(r.attrs.conversationId));
      var turn := if known && key in turns then Some(turns[key]) else None;
      var length := ConsumeForUsageEvent(user, r, "");
      var ref := RecordUsage(user, CodexRequest(env, user, ip, r, turn, length));
      if known { EndTurn(user, key, ref); }
    }

    /** The turn is used up, and the calls that waited in it leave their buffer, to be recorded if the usage was. */
    method EndTurn(user: string, key: string, ref: Option<UsageRef>)
      modifies this`turns, this`codex, this`log
      ensures Current() == Settled(TurnEnded(old(Current()), key), user, CodexTools, key, ref, "codex")
    {
      turns := turns - {key};
      var calls := At(codex, key);
      codex := codex - {key};
      if ref.Some? { log := RecordCalls(log, user, calls, ref.value, "codex", CodexTools, key); }
    }

    method HandleMessageUsage(user: string, ip: Option<string>, r: LogRecord)
      modifies this`message, this`log
      ensures Current() == MessageUsage(old(Current()), env, user, ip, r)
    {
      var ref := RecordUsage(user, MessageRequest(env, user, ip, r));
      if Present(r.attrs.messageId) {
        var key := Scoped(user, r.attrs.messageId.value);
        var calls := At(message, key);
        message := message - {key};
        if ref.Some? { log := RecordCalls(log, user, calls, ref.value, r.service, MessageTools, key); }
      }
    }

    method HandleUsageEvent(user: string, ip: Option<string>, now: int, r: LogRecord)
      modifies this
      ensures Current() == HandleUsage(old(Current()), env, user, ip, now, r)
      ensures history == old(history)
    {
      var name := EventName(r);
      if (name == "claude_code.api_request" || name == "api_request") && r.service == "claude-code" {
        HandleClaudeUsage(user, ip, r);
      } else if name == "codex.sse_event" && IsCodex(r.service) {
        if IsStateEvent(r) { HandleCodexState(user, now, r); } else { HandleCodexUsage(user, ip, r); }
      } else if (name == "codex.api_request" || name == "codex.websocket_request") && IsCodex(r.service) {
        HandleCodexState(user, now, r);
      } else if IsMessageService(r.service) && name == r.service + ".message_completed" {
        HandleMessageUsage(user, ip, r);
      }
    }

    /** `_parse_log_record`. */
    method ParseLogRecord(user: string, ip: Option<string>, now: int, r: LogRecord)
      modifies this
      ensures Current() == Handle(old(Current()), env, user, ip, now, r)
      ensures history == old(history)
    {
      if !IsRetired(r.service) {
        RecordPromptEvent(user, now, r);
        HandleToolEvent(user, r);
        HandleUsageEvent(user, ip, now, r);
      }
    }

    /** `receive_logs`: the number of records past the limit is reported, not hidden. */
    method Receive(p: Post) returns (rejected: nat)
      requires Valid() && IsUser(p.user)
      modifies this
      ensures Valid() && history == old(history) + [p]
      ensures Current() == Received(old(Current()), env, maxRecords, p)
      ensures rejected + |Accepted(p.records, maxRecords)| == |Live(p.records)|
    {
      EvictStale(p.now);
      ghost var evicted := Current();
      var records;
      records, rejected := AcceptRecords(p.records, maxRecords);
      for n := 0 to |records|
        invariant Current() == HandleAll(evicted, env, p.user, p.clientIp, p.now, records[..n]) &&
          history == old(history)
      {
        assert records[..n + 1][..n] == records[..n];
        ParseLogRecord(p.user, p.clientIp, p.now, records[n]);
      }
      assert records[..|records|] == records;
      OtlpIsolation.RunAppend(EMPTY, env, maxRecords, history, p);
      history := history + [p];
    }

    /** Any further posts. Afterwards, over the receiver's whole life: the log holds for every user exactly what its
        own posts alone would give; every tool call ever buffered was recorded, evicted, dropped or is still waiting,
        and the log holds exactly the recorded ones; ids under a buffer key are distinct; recorded calls carry their
        user's scoped id and point back to rows of that user. */
    method ReceiveAll(posts: seq<Post>)
      requires Valid() && forall k :: 0 <= k < |posts| ==> IsUser(posts[k].user)
      modifies this
      ensures Valid() && history == old(history) + posts
      ensures SoundLife(env, maxRecords, history, Current())
    {
      for n := 0 to |posts|
        invariant Valid() && history == old(history) + posts[..n]
      {
        assert posts[..n + 1] == posts[..n] + [posts[n]];
        var _ := Receive(posts[n]);
      }
      assert posts[..|posts|] == posts;
      LifeIsSound(env, maxRecords, history);
    }
  }

  /** The balance of one buffer slot over a run that ended in `s`. */
  predicate IsConserved(env: Env, steps: seq<OtlpFates.Step>, s: State, slot: Slot) {
    OtlpFates.Recordings(s.log, slot) == OtlpFates.Times(env, steps, slot, OtlpFates.IsRecorded) &&
    OtlpFates.Times(env, steps, slot, OtlpFates.Joins) ==
      OtlpFates.Times(env, steps, slot, OtlpFates.IsRecorded) + OtlpFates.Times(env, steps, slot, OtlpFates.IsEvicted) +
      OtlpFates.Times(env, steps, slot, OtlpFates.IsDropped) + (if OtlpFates.Waits(s, slot) then 1 else 0)
  }

  /** What holds of the tables after a life of posts. */
  ghost predicate SoundLife(env: Env, limit: nat, posts: seq<Post>, s: State) {
    (forall user :: IsUser(user) && OtlpIsolation.InOrder(posts) ==>
      Own(s.log, user) == Run(EMPTY, env, limit, OtlpIsolation.Only(posts, user)).log) &&
    (forall slot :: IsConserved(env, OtlpFates.StepsOf(posts, limit), s, slot)) &&
    OtlpFates.Proper(s) && OtlpFates.AllSound(s.log) && OtlpReferences.Grounded(s)
  }

  lemma LifeIsSound(env: Env, limit: nat, posts: seq<Post>)
    requires forall k :: 0 <= k < |posts| ==> IsUser(posts[k].user)
    ensures SoundLife(env, limit, posts, Run(EMPTY, env, limit, posts))
  {
    var steps := OtlpFates.StepsOf(posts, limit);
    OtlpFates.RunIsItsSteps(env, limit, posts);
    forall user | IsUser(user) && OtlpIsolation.InOrder(posts)
      ensures Own(Run(EMPTY, env, limit, posts).log, user) ==
        Run(EMPTY, env, limit, OtlpIsolation.Only(posts, user)).log
    {
      OtlpIsolation.UsersDoNotInterfere(env, limit, posts, user, if posts == [] then 0 else posts[|posts| - 1].now);
    }
    forall slot ensures IsConserved(env, steps, OtlpFates.AfterAll(EMPTY, env, steps), slot) {
      OtlpFates.CallsAreConserved(env, steps, slot);
    }
    OtlpFates.CallsAreConserved(env, steps, Slot(ClaudeTools, "", ""));
    OtlpFates.RecordedIdsAreScoped(env, steps);
    OtlpFates.StepUsers(posts, limit);
    OtlpReferences.CallsPointToOwnRows(env, steps);
  }
}
