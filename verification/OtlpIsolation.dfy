/** Users do not interfere: what is recorded for a user is what its own posts alone would give. */
module OtlpIsolation {
  import opened Basics
  import opened Requests
  import opened Correlation
  import opened Otlp

  /** The part of a table that one user owns. */
  function Mine<V>(m: map<string, V>, user: string): map<string, V> {
    map k | k in m && Owns(user, k) :: m[k]
  }

  /** What one user can see of a state: its own keys and its own records. */
  function View(s: State, user: string): State {
    State(Mine(s.claude, user), Mine(s.codex, user), Mine(s.message, user), Mine(s.turns, user),
          Mine(s.lastUsage, user), Mine(s.prompts, user), Own(s.log, user))
  }

  lemma MineAt<V>(m: map<string, V>, k: string, user: string)
    requires Owns(user, k)
    ensures k in Mine(m, user) <==> k in m
    ensures k in m ==> Mine(m, user)[k] == m[k]
  {
  }

  lemma MineAfter<V>(m: map<string, V>, k: string, v: V, user: string)
    ensures Mine(m[k := v], user) == if Owns(user, k) then Mine(m, user)[k := v] else Mine(m, user)
    ensures Mine(m - {k}, user) == if Owns(user, k) then Mine(m, user) - {k} else Mine(m, user)
  {
  }

  // ---------------------------------------------------------------- the log

  lemma {:induction false} OwnOfConcat(a: Log, b: Log, user: string)
    ensures Own(a + b, user) == Own(a, user) + Own(b, user)
    decreases |b|
  {
    if b == [] {
      assert a + b == a;
    } else {
      assert (a + b)[..|a + b| - 1] == a + b[..|b| - 1];
      OwnOfConcat(a, b[..|b| - 1], user);
    }
  }

  lemma OwnOfOne(a: Log, e: Entry, user: string)
    ensures Own(a + [e], user) == Own(a, user) + (if e.user == user then [e] else [])
  {
    assert (a + [e])[..|a|] == a;
  }

  lemma {:induction false} OwnOfCalls(u: string, ws: seq<Waiting>, ref: UsageRef, source: string, kind: Kind,
                                      key: string, user: string)
    ensures Own(CallsFor(u, ws, ref, source, kind, key), user) ==
            if u == user then CallsFor(u, ws, ref, source, kind, key) else []
    decreases |ws|
  {
    if ws != [] {
      var w := ws[|ws| - 1];
      var rest := CallsFor(u, ws[..|ws| - 1], ref, source, kind, key);
      OwnOfCalls(u, ws[..|ws| - 1], ref, source, kind, key, user);
      OwnOfOne(rest, CallEntry(u, CallFor(u, w, Some(ref), ref.sessionId, source), Slot(kind, key, w.id)), user);
    }
  }

  // ---------------------------------------------------------------- one change

  // Each change writes under one key only and reads nothing else. Seen by the owner of the key it acts on the
  // view as on the state; seen by any other user it does nothing.

  lemma Touch(u: string, user: string, id: string)
    requires IsUser(u) && IsUser(user)
    ensures Owns(user, Scoped(u, id)) <==> u == user
  {
    ScopedIsInjective(u, user, id, id);
  }

  lemma SayIsLocal(s: State, e: Entry, user: string)
    ensures View(Say(s, e), user) == if e.user == user then Say(View(s, user), e) else View(s, user)
  {
    OwnOfOne(s.log, e, user);
  }

  lemma EnqueueIsLocal(s: State, u: string, id: string, length: int, now: int, user: string)
    requires IsUser(u) && IsUser(user)
    ensures View(Enqueue(s, Scoped(u, id), length, now), user) ==
            if u == user then Enqueue(View(s, user), Scoped(u, id), length, now) else View(s, user)
  {
    Touch(u, user, id);
    MineAfter(s.prompts, Scoped(u, id),
      Queue(now, (if Scoped(u, id) in s.prompts then s.prompts[Scoped(u, id)].values else []) + [length]), user);
  }

  lemma DequeueIsLocal(s: State, u: string, id: string, user: string)
    requires IsUser(u) && IsUser(user)
    ensures View(Dequeue(s, Scoped(u, id)), user) ==
            if u == user then Dequeue(View(s, user), Scoped(u, id)) else View(s, user)
    ensures u == user ==> NextLength(View(s, user).prompts, Scoped(u, id)) == NextLength(s.prompts, Scoped(u, id))
  {
    ConsumedIsLocal(s.prompts, u, id, user);
  }

  lemma ConsumedIsLocal(p: Prompts, u: string, id: string, user: string)
    requires IsUser(u) && IsUser(user)
    ensures Mine(Consumed(p, Scoped(u, id)), user) ==
            if u == user then Consumed(Mine(p, user), Scoped(u, id)) else Mine(p, user)
    ensures u == user ==> NextLength(Mine(p, user), Scoped(u, id)) == NextLength(p, Scoped(u, id))
  {
    var key := Scoped(u, id);
    Touch(u, user, id);
    if key in p { MineAfter(p, key, p[key].(values := if |p[key].values| <= 1 then [] else p[key].values[1..]), user); }
  }

  lemma BufferedIsLocal(s: State, kind: Kind, u: string, id: string, w: Waiting, user: string)
    requires IsUser(u) && IsUser(user)
    ensures View(Buffered(s, kind, Scoped(u, id), w), user) ==
            if u == user then Buffered(View(s, user), kind, Scoped(u, id), w) else View(s, user)
  {
    var b, key := BufferOf(s, kind), Scoped(u, id);
    Touch(u, user, id);
    MineAfter(b, key, Noted(At(b, key), w), user);
  }

  lemma EnrichedIsLocal(s: State, u: string, id: string, call: string, durationMs: int, user: string)
    requires IsUser(u) && IsUser(user)
    ensures View(Enriched(s, Scoped(u, id), call, durationMs), user) ==
            if u == user then Enriched(View(s, user), Scoped(u, id), call, durationMs) else View(s, user)
  {
    var key := Scoped(u, id);
    Touch(u, user, id);
    if key in s.codex { MineAfter(s.codex, key, Timed(s.codex[key], call, durationMs), user); }
  }

  lemma MovedIsLocal(s: State, kind: Kind, b: Buffer, calls: Log, user: string)
    ensures View(Moved(s, kind, b, calls), user) == Moved(View(s, user), kind, Mine(b, user), Own(calls, user))
  {
    OwnOfConcat(s.log, calls, user);
  }

  lemma NothingMoved(s: State, kind: Kind)
    ensures Moved(s, kind, BufferOf(s, kind), []) == s
  {
    assert s.log + [] == s.log;
  }

  lemma PutIsLocal(b: Buffer, u: string, id: string, ws: seq<Waiting>, user: string)
    requires IsUser(u) && IsUser(user)
    ensures Mine(Put(b, Scoped(u, id), ws), user) ==
      if u == user then Put(Mine(b, user), Scoped(u, id), ws) else Mine(b, user)
    ensures u == user ==> At(Mine(b, user), Scoped(u, id)) == At(b, Scoped(u, id))
    ensures u == user ==> (Scoped(u, id) in Mine(b, user) <==> Scoped(u, id) in b)
  {
    Touch(u, user, id);
    MineAfter(b, Scoped(u, id), ws, user);
  }

  lemma FinishedIsLocal(s: State, u: string, id: string, call: string, d: Option<int>, session: Option<string>,
                        user: string)
    requires IsUser(u) && IsUser(user)
    ensures View(Finished(s, u, Scoped(u, id), call, d, session), user) ==
            if u == user then Finished(View(s, user), u, Scoped(u, id), call, d, session) else View(s, user)
  {
    var key := Scoped(u, id);
    var found := Find(At(s.claude, key), call);
    PutIsLocal(s.claude, u, id, if found.Some? then Without(s.claude[key], call) else [], user);
    if found.Some? {
      var calls := Finished(s, u, key, call, d, session).log[|s.log|..];
      assert |calls| == 1 && calls[0].user == u && calls == [] + [calls[0]];
      OwnOfOne([], calls[0], user);
      MovedIsLocal(s, ClaudeTools, Put(s.claude, key, Without(s.claude[key], call)), calls, user);
      if u == user {
        Touch(u, user, id);
        MineAt(s.lastUsage, key, user);
      } else {
        NothingMoved(View(s, user), ClaudeTools);
      }
    }
  }

  lemma FlushedIsLocal(s: State, u: string, id: string, ref: UsageRef, startMs: int, user: string)
    requires IsUser(u) && IsUser(user)
    ensures View(Flushed(s, u, Scoped(u, id), ref, startMs), user) ==
            if u == user then Flushed(View(s, user), u, Scoped(u, id), ref, startMs) else View(s, user)
  {
    var key := Scoped(u, id);
    var late, early := Since(At(s.claude, key), startMs, true), Since(At(s.claude, key), startMs, false);
    PutIsLocal(s.claude, u, id, late, user);
    if key in s.claude {
      var calls := CallsFor(u, early, ref, "claude-code", ClaudeTools, key);
      OwnOfCalls(u, early, ref, "claude-code", ClaudeTools, key, user);
      MovedIsLocal(s, ClaudeTools, Put(s.claude, key, late), calls, user);
      if u != user { NothingMoved(View(s, user), ClaudeTools); }
    }
  }

  lemma SettledIsLocal(s: State, u: string, kind: Kind, id: string, ref: Option<UsageRef>, source: string, user: string)
    requires IsUser(u) && IsUser(user)
    ensures View(Settled(s, u, kind, Scoped(u, id), ref, source), user) ==
            if u == user then Settled(View(s, user), u, kind, Scoped(u, id), ref, source) else View(s, user)
  {
    var b, key := BufferOf(s, kind), Scoped(u, id);
    PutIsLocal(b, u, id, [], user);
    var calls := if ref.None? then [] else CallsFor(u, At(b, key), ref.value, source, kind, key);
    if ref.Some? { OwnOfCalls(u, At(b, key), ref.value, source, kind, key, user); }
    MovedIsLocal(s, kind, b - {key}, calls, user);
    ViewOfBuffer(s, kind, user);
    if u != user { NothingMoved(View(s, user), kind); }
  }

  lemma ViewOfBuffer(s: State, kind: Kind, user: string)
    ensures BufferOf(View(s, user), kind) == Mine(BufferOf(s, kind), user)
  {
  }

  lemma LastUsedIsLocal(s: State, u: string, id: string, last: LastUsage, user: string)
    requires IsUser(u) && IsUser(user)
    ensures View(LastUsed(s, Scoped(u, id), last), user) ==
            if u == user then LastUsed(View(s, user), Scoped(u, id), last) else View(s, user)
  {
    Touch(u, user, id);
    MineAfter(s.lastUsage, Scoped(u, id), last, user);
  }

  lemma TurnedIsLocal(s: State, u: string, id: string, t: Turn, user: string)
    requires IsUser(u) && IsUser(user)
    ensures View(Turned(s, Scoped(u, id), t), user) ==
            if u == user then Turned(View(s, user), Scoped(u, id), t) else View(s, user)
    ensures View(TurnEnded(s, Scoped(u, id)), user) ==
            if u == user then TurnEnded(View(s, user), Scoped(u, id)) else View(s, user)
    ensures u == user ==> TurnAt(View(s, user), Scoped(u, id)) == TurnAt(s, Scoped(u, id))
  {
    Touch(u, user, id);
    MineAfter(s.turns, Scoped(u, id), t, user);
  }

  // ---------------------------------------------------------------- one event

  lemma NotePromptIsLocal(s: State, u: string, now: int, r: LogRecord, user: string)
    requires IsUser(u) && IsUser(user)
    ensures View(NotePrompt(s, u, now, r), user) ==
      if u == user then NotePrompt(View(s, user), u, now, r) else View(s, user)
  {
    var key := PromptKey(r, OrEmpty(SessionOf(r)));
    if r.attrs.promptLength.Some? && key.Some? {
      EnqueueIsLocal(s, u, key.value, r.attrs.promptLength.value, now, user);
    }
  }

  lemma ConsumePromptIsLocal(s: State, u: string, r: LogRecord, session: string, user: string)
    requires IsUser(u) && IsUser(user)
    ensures View(ConsumePrompt(s, u, r, session), user) ==
            if u == user then ConsumePrompt(View(s, user), u, r, session) else View(s, user)
    ensures u == user ==> PromptLengthFor(View(s, user), u, r, session) == PromptLengthFor(s, u, r, session)
  {
    var key := PromptKey(r, session);
    if key.Some? { DequeueIsLocal(s, u, key.value, user); }
  }

  lemma ClaudeRecordedIsLocal(s: State, u: string, q: Request, ref: Option<UsageRef>, prompt: Option<string>,
                              user: string)
    requires IsUser(u) && IsUser(user)
    ensures View(ClaudeRecorded(s, u, q, ref, prompt), user) ==
            if u == user then ClaudeRecorded(View(s, user), u, q, ref, prompt) else View(s, user)
  {
    var e := UsageEntry(u, q, ref);
    SayIsLocal(s, e, user);
    if ref.Some? && Present(prompt) {
      FlushedIsLocal(Say(s, e), u, prompt.value, ref.value, WindowStartMs(q), user);
      LastUsedIsLocal(Flushed(Say(s, e), u, Scoped(u, prompt.value), ref.value, WindowStartMs(q)), u, prompt.value,
                      LastUsage(ref.value, q.ts / 1000), user);
    }
  }

  lemma CodexRecordedIsLocal(s: State, u: string, q: Request, ref: Option<UsageRef>, conversation: Option<string>,
                             user: string)
    requires IsUser(u) && IsUser(user)
    ensures View(CodexRecorded(s, u, q, ref, conversation), user) ==
            if u == user then CodexRecorded(View(s, user), u, q, ref, conversation) else View(s, user)
  {
    var e := UsageEntry(u, q, ref);
    SayIsLocal(s, e, user);
    if Present(conversation) {
      TurnedIsLocal(Say(s, e), u, conversation.value, Turn(0, None, None, None), user);
      SettledIsLocal(TurnEnded(Say(s, e), Scoped(u, conversation.value)), u, CodexTools, conversation.value, ref,
        "codex", user);
    }
  }

  lemma MessageRecordedIsLocal(s: State, u: string, q: Request, ref: Option<UsageRef>, message: Option<string>,
                               source: string, user: string)
    requires IsUser(u) && IsUser(user)
    ensures View(MessageRecorded(s, u, q, ref, message, source), user) ==
            if u == user then MessageRecorded(View(s, user), u, q, ref, message, source) else View(s, user)
  {
    var e := UsageEntry(u, q, ref);
    SayIsLocal(s, e, user);
    if Present(message) { SettledIsLocal(Say(s, e), u, MessageTools, message.value, ref, source, user); }
  }

  lemma ClaudeDecisionIsLocal(s: State, u: string, r: LogRecord, user: string)
    requires IsUser(u) && IsUser(user)
    ensures View(ClaudeDecision(s, u, r), user) ==
      if u == user then ClaudeDecision(View(s, user), u, r) else View(s, user)
  {
    BufferedIsLocal(s, ClaudeTools, u, OrEmpty(r.attrs.promptDotId), Decided(r, r.attrs.toolUseId, None), user);
  }

  lemma CodexDecisionIsLocal(s: State, u: string, r: LogRecord, user: string)
    requires IsUser(u) && IsUser(user)
    ensures View(CodexDecision(s, u, r), user) ==
      if u == user then CodexDecision(View(s, user), u, r) else View(s, user)
  {
    BufferedIsLocal(s, CodexTools, u, OrEmpty(r.attrs.conversationId), Decided(r, r.attrs.callId, None), user);
  }

  lemma MessageDecisionIsLocal(s: State, u: string, r: LogRecord, user: string)
    requires IsUser(u) && IsUser(user)
    ensures View(MessageDecision(s, u, r), user) ==
      if u == user then MessageDecision(View(s, user), u, r) else View(s, user)
  {
    BufferedIsLocal(s, MessageTools, u, OrEmpty(r.attrs.messageId), Decided(r, r.attrs.callId, r.attrs.durationMs),
      user);
  }

  lemma ClaudeResultIsLocal(s: State, u: string, r: LogRecord, user: string)
    requires IsUser(u) && IsUser(user)
    ensures View(ClaudeResult(s, u, r), user) == if u == user then ClaudeResult(View(s, user), u, r) else View(s, user)
  {
    FinishedIsLocal(s, u, OrEmpty(r.attrs.promptDotId), OrEmpty(r.attrs.toolUseId), r.attrs.durationMs, SessionOf(r),
      user);
  }

  lemma HandleToolIsLocal(s: State, u: string, r: LogRecord, user: string)
    requires IsUser(u) && IsUser(user)
    ensures View(HandleTool(s, u, r), user) == if u == user then HandleTool(View(s, user), u, r) else View(s, user)
  {
    var name := EventName(r);
    if name == "tool_decision" && r.service == "claude-code" {
      ClaudeDecisionIsLocal(s, u, r, user);
    } else if name == "tool_result" && r.service == "claude-code" {
      ClaudeResultIsLocal(s, u, r, user);
    } else if name == "codex.tool_decision" && IsCodex(r.service) {
      CodexDecisionIsLocal(s, u, r, user);
    } else if name == "codex.tool_result" && IsCodex(r.service) {
      CodexResultIsLocal(s, u, r, user);
    } else if IsMessageService(r.service) && name == r.service + ".tool_decision" {
      MessageDecisionIsLocal(s, u, r, user);
    }
  }

  lemma CodexResultIsLocal(s: State, u: string, r: LogRecord, user: string)
    requires IsUser(u) && IsUser(user)
    ensures View(CodexResult(s, u, r), user) == if u == user then CodexResult(View(s, user), u, r) else View(s, user)
  {
    if r.attrs.durationMs.Some? {
      var conversation, id, d := OrEmpty(r.attrs.conversationId), OrEmpty(r.attrs.callId), r.attrs.durationMs.value;
      EnrichedIsLocal(s, u, conversation, id, d, user);
      SayIsLocal(s, DurationEntry(u, Scoped(u, id), "codex", d), user);
      if u == user {
        Touch(u, user, conversation);
        MineAt(s.codex, Scoped(u, conversation), user);
      }
    }
  }

  lemma HandleUsageIsLocal(s: State, env: Env, u: string, ip: Option<string>, now: int, r: LogRecord, user: string)
    requires IsUser(u) && IsUser(user)
    ensures View(HandleUsage(s, env, u, ip, now, r), user) ==
            if u == user then HandleUsage(View(s, user), env, u, ip, now, r) else View(s, user)
  {
    var name := EventName(r);
    if (name == "claude_code.api_request" || name == "api_request") && r.service == "claude-code" {
      ClaudeUsageIsLocal(s, env, u, ip, r, user);
    } else if name == "codex.sse_event" && IsCodex(r.service) {
      if IsStateEvent(r) { CodexStateIsLocal(s, u, now, r, user); } else { CodexUsageIsLocal(s, env, u, ip, r, user); }
    } else if (name == "codex.api_request" || name == "codex.websocket_request") && IsCodex(r.service) {
      CodexStateIsLocal(s, u, now, r, user);
    } else if IsMessageService(r.service) && name == r.service + ".message_completed" {
      MessageUsageIsLocal(s, env, u, ip, r, user);
    }
  }

  lemma CodexStateIsLocal(s: State, u: string, now: int, r: LogRecord, user: string)
    requires IsUser(u) && IsUser(user)
    ensures View(CodexState(s, u, now, r), user) ==
      if u == user then CodexState(View(s, user), u, now, r) else View(s, user)
  {
    var id := OrEmpty(r.attrs.conversationId);
    TurnedIsLocal(s, u, id, NextTurn(TurnAt(s, Scoped(u, id)), now, r), user);
  }

  lemma ClaudeUsageIsLocal(s: State, env: Env, u: string, ip: Option<string>, r: LogRecord, user: string)
    requires IsUser(u) && IsUser(user)
    ensures View(ClaudeUsage(s, env, u, ip, r), user) ==
      if u == user then ClaudeUsage(View(s, user), env, u, ip, r) else View(s, user)
  {
    var session := OrEmpty(SessionOf(r));
    ConsumePromptIsLocal(s, u, r, session, user);
    var q := ClaudeRequest(env, u, ip, r, PromptLengthFor(s, u, r, session));
    ClaudeRecordedIsLocal(ConsumePrompt(s, u, r, session), u, q, RowOf(env, s.log, u, q), r.attrs.promptDotId, user);
    if u == user { OwnIsOwn(s.log, user); }
  }

  lemma {:induction false} OwnIsOwn(log: Log, user: string)
    ensures Own(Own(log, user), user) == Own(log, user)
    decreases |log|
  {
    if log != [] {
      OwnIsOwn(log[..|log| - 1], user);
      var rest := Own(log[..|log| - 1], user);
      OwnOfOne(rest, log[|log| - 1], user);
      assert rest + [] == rest;
    }
  }

  lemma CodexUsageIsLocal(s: State, env: Env, u: string, ip: Option<string>, r: LogRecord, user: string)
    requires IsUser(u) && IsUser(user)
    ensures View(CodexUsage(s, env, u, ip, r), user) ==
      if u == user then CodexUsage(View(s, user), env, u, ip, r) else View(s, user)
  {
    if CompletesCodex(r) {
      var id := OrEmpty(r.attrs.conversationId);
      TurnedIsLocal(s, u, id, Turn(0, None, None, None), user);
      var t := if Present(r.attrs.conversationId) then TurnAt(s, Scoped(u, id)) else None;
      ConsumePromptIsLocal(s, u, r, "", user);
      var q := CodexRequest(env, u, ip, r, t, PromptLengthFor(s, u, r, ""));
      CodexRecordedIsLocal(ConsumePrompt(s, u, r, ""), u, q, RowOf(env, s.log, u, q), r.attrs.conversationId, user);
      if u == user { OwnIsOwn(s.log, user); }
    }
  }

  lemma MessageUsageIsLocal(s: State, env: Env, u: string, ip: Option<string>, r: LogRecord, user: string)
    requires IsUser(u) && IsUser(user)
    ensures View(MessageUsage(s, env, u, ip, r), user) ==
      if u == user then MessageUsage(View(s, user), env, u, ip, r) else View(s, user)
  {
    var q := MessageRequest(env, u, ip, r);
    MessageRecordedIsLocal(s, u, q, RowOf(env, s.log, u, q), r.attrs.messageId, r.service, user);
    if u == user { OwnIsOwn(s.log, user); }
  }

  /** Seen by its own user an event does to the view what it does to the state; seen by anyone else, nothing. */
  lemma HandleIsLocal(s: State, env: Env, u: string, ip: Option<string>, now: int, r: LogRecord, user: string)
    requires IsUser(u) && IsUser(user)
    ensures View(Handle(s, env, u, ip, now, r), user) ==
      if u == user then Handle(View(s, user), env, u, ip, now, r) else View(s, user)
  {
    if !IsRetired(r.service) {
      NotePromptIsLocal(s, u, now, r, user);
      HandleToolIsLocal(NotePrompt(s, u, now, r), u, r, user);
      HandleUsageIsLocal(HandleTool(NotePrompt(s, u, now, r), u, r), env, u, ip, now, r, user);
    }
  }

  lemma {:induction false} HandleAllIsLocal(s: State, env: Env, u: string, ip: Option<string>, now: int,
                                            rs: seq<LogRecord>, user: string)
    requires IsUser(u) && IsUser(user)
    ensures View(HandleAll(s, env, u, ip, now, rs), user) ==
            if u == user then HandleAll(View(s, user), env, u, ip, now, rs) else View(s, user)
    decreases |rs|
  {
    if rs != [] {
      HandleAllIsLocal(s, env, u, ip, now, rs[..|rs| - 1], user);
      HandleIsLocal(HandleAll(s, env, u, ip, now, rs[..|rs| - 1]), env, u, ip, now, rs[|rs| - 1], user);
    }
  }

  // ---------------------------------------------------------------- runs

  lemma EvictIsLocal(s: State, now: int, user: string)
    ensures View(Evict(s, now), user) == Evict(View(s, user), now)
  {
    EvictBufferIsLocal(s.claude, now, user);
    EvictBufferIsLocal(s.codex, now, user);
    EvictBufferIsLocal(s.message, now, user);
    EvictRestIsLocal(s, now, user);
  }

  lemma EvictBufferIsLocal(b: Buffer, now: int, user: string)
    ensures Mine(EvictBuffer(b, now), user) == EvictBuffer(Mine(b, user), now)
  {
  }

  lemma EvictRestIsLocal(s: State, now: int, user: string)
    ensures Mine(EvictTurns(s.turns, now), user) == EvictTurns(Mine(s.turns, user), now)
    ensures Mine(EvictLastUsage(s.lastUsage, now), user) == EvictLastUsage(Mine(s.lastUsage, user), now)
    ensures Mine(EvictPrompts(s.prompts, now), user) == EvictPrompts(Mine(s.prompts, user), now)
  {
  }

  /** An earlier eviction takes nothing that a later one would not take. */
  lemma EvictAgain(s: State, now: int, later: int)
    requires now <= later
    ensures Evict(Evict(s, now), later) == Evict(s, later)
  {
    assert EvictBuffer(EvictBuffer(s.claude, now), later) == EvictBuffer(s.claude, later);
    assert EvictBuffer(EvictBuffer(s.codex, now), later) == EvictBuffer(s.codex, later);
    assert EvictBuffer(EvictBuffer(s.message, now), later) == EvictBuffer(s.message, later);
    assert EvictTurns(EvictTurns(s.turns, now), later) == EvictTurns(s.turns, later);
    assert EvictLastUsage(EvictLastUsage(s.lastUsage, now), later) == EvictLastUsage(s.lastUsage, later);
    assert EvictPrompts(EvictPrompts(s.prompts, now), later) == EvictPrompts(s.prompts, later);
  }

  /** Two states become the same once everything stale is dropped, at any moment from `now` on. */
  ghost predicate SameUpToStale(s: State, a: State, now: int) {
    forall t :: now <= t ==> Evict(s, t) == Evict(a, t)
  }

  lemma OneMorePost(s: State, a: State, env: Env, limit: nat, p: Post, user: string, now: int)
    requires IsUser(p.user) && IsUser(user) && now <= p.now && SameUpToStale(View(s, user), a, now)
    ensures SameUpToStale(View(Received(s, env, limit, p), user), if p.user ==
      user then Received(a, env, limit, p) else a, p.now)
  {
    var v := View(s, user);
    EvictIsLocal(s, p.now, user);
    HandleAllIsLocal(Evict(s, p.now), env, p.user, p.clientIp, p.now, Accepted(p.records, limit), user);
    if p.user == user {
      assert View(Received(s, env, limit, p), user) == Received(a, env, limit, p);
    } else {
      forall t | p.now <= t ensures Evict(Evict(v, p.now), t) == Evict(a, t) {
        EvictAgain(v, p.now, t);
      }
    }
  }

  predicate InOrder(posts: seq<Post>) {
    (forall i :: 0 <= i < |posts| ==> IsUser(posts[i].user)) &&
    forall i, j :: 0 <= i < j < |posts| ==> posts[i].now <= posts[j].now
  }

  /** The posts of one user, in order. */
  function Only(posts: seq<Post>, user: string): seq<Post> {
    if posts == [] then []
    else Only(posts[..|posts| - 1], user) + (if posts[|posts| - 1].user == user then [posts[|posts| - 1]] else [])
  }

  lemma RunAppend(s: State, env: Env, limit: nat, posts: seq<Post>, p: Post)
    ensures Run(s, env, limit, posts + [p]) == Received(Run(s, env, limit, posts), env, limit, p)
  {
    assert (posts + [p])[..|posts|] == posts;
  }

  /** What the user sees of the whole run is its own run, up to stale entries. */
  ghost predicate Follows(env: Env, limit: nat, posts: seq<Post>, user: string, now: int) {
    SameUpToStale(View(Run(EMPTY, env, limit, posts), user), Run(EMPTY, env, limit, Only(posts, user)), now)
  }

  predicate Extends(P: (seq<Post>, int) -> bool, rest: seq<Post>, now: int, p: Post) {
    P(rest, now) && now <= p.now && IsUser(p.user) ==> P(rest + [p], p.now)
  }

  /** Induction over the posts of a run, with the time of the last one. */
  lemma {:induction false} OverPosts(P: (seq<Post>, int) -> bool, posts: seq<Post>, n: nat)
    requires InOrder(posts) && n <= |posts|
    requires forall now :: P([], now)
    requires forall rest, now, p :: Extends(P, rest, now, p)
    ensures forall now :: (n > 0 ==> posts[n - 1].now == now) ==> P(posts[..n], now)
  {
    if n == 0 {
      assert posts[..n] == [];
    } else {
      OverPosts(P, posts, n - 1);
      var now := if n > 1 then posts[n - 2].now else posts[n - 1].now;
      assert P(posts[..n - 1], now) && Extends(P, posts[..n - 1], now, posts[n - 1]);
      assert posts[..n] == posts[..n - 1] + [posts[n - 1]];
    }
  }

  lemma ViewFollowsOwnRun(env: Env, limit: nat, posts: seq<Post>, user: string, now: int)
    requires IsUser(user) && InOrder(posts) && (posts != [] ==> posts[|posts| - 1].now <= now)
    ensures Follows(env, limit, posts, user, now)
  {
    var P := (posts: seq<Post>, now: int) => Follows(env, limit, posts, user, now);
    assert View(EMPTY, user) == EMPTY;
    forall rest, t, p ensures Extends(P, rest, t, p) {
      if P(rest, t) && t <= p.now && IsUser(p.user) {
        FollowsLater(env, limit, rest, user, t, p.now);
        NextPostFollows(env, limit, rest, p, user);
      }
    }
    OverPosts(P, posts, |posts|);
    assert posts[..|posts|] == posts;
    var last := if posts == [] then now else posts[|posts| - 1].now;
    assert P(posts, last);
    FollowsLater(env, limit, posts, user, last, now);
  }

  lemma FollowsLater(env: Env, limit: nat, posts: seq<Post>, user: string, now: int, later: int)
    requires Follows(env, limit, posts, user, now) && now <= later
    ensures Follows(env, limit, posts, user, later)
  {
  }

  lemma NextPostFollows(env: Env, limit: nat, rest: seq<Post>, p: Post, user: string)
    requires IsUser(user) && IsUser(p.user) && Follows(env, limit, rest, user, p.now)
    ensures Follows(env, limit, rest + [p], user, p.now)
  {
    var s, a := Run(EMPTY, env, limit, rest), Run(EMPTY, env, limit, Only(rest, user));
    OnlyAppend(rest, p, user);
    RunAppend(EMPTY, env, limit, rest, p);
    RunAppend(EMPTY, env, limit, Only(rest, user), p);
    assert Only(rest, user) + [] == Only(rest, user);
    OneMorePost(s, a, env, limit, p, user, p.now);
  }

  lemma OnlyAppend(posts: seq<Post>, p: Post, user: string)
    ensures Only(posts + [p], user) == Only(posts, user) + (if p.user == user then [p] else [])
  {
    assert (posts + [p])[..|posts|] == posts;
  }

  /** Non-interference. However the posts of other users, and the evictions they cause, are interleaved,
      the usage rows, tool calls and late durations recorded for a user, with their contents and order, are
      those of a run of that user's posts alone; and what waits for the user differs at most in entries
      already stale. */
  lemma UsersDoNotInterfere(env: Env, limit: nat, posts: seq<Post>, user: string, now: int)
    requires IsUser(user) && InOrder(posts) && (posts != [] ==> posts[|posts| - 1].now <= now)
    ensures Own(Run(EMPTY, env, limit, posts).log, user) == Run(EMPTY, env, limit, Only(posts, user)).log
    ensures Evict(View(Run(EMPTY, env, limit, posts), user), now) ==
      Evict(Run(EMPTY, env, limit, Only(posts, user)), now)
  {
    ViewFollowsOwnRun(env, limit, posts, user, now);
    var v, a := View(Run(EMPTY, env, limit, posts), user), Run(EMPTY, env, limit, Only(posts, user));
    assert Evict(v, now) == Evict(a, now);
    assert Evict(v, now).log == v.log && Evict(a, now).log == a.log;
  }
}
