/** What recorded entries refer to: tool calls point back to usage rows of their own user. */
module OtlpReferences {
  import opened Basics
  import opened Requests
  import opened Correlation
  import opened Otlp
  import opened OtlpFates

  // ---------------------------------------------------------------- tool calls point at real usage rows

  /** A usage row with this id was recorded for the user. */
  predicate HasRow(log: Log, user: string, id: string) {
    exists j :: 0 <= j < |log| && IsRow(log[j], user, id)
  }

  predicate IsRow(e: Entry, user: string, id: string) {
    e.UsageEntry? && e.user == user && e.ref.Some? && e.ref.value.id == id
  }

  predicate PointsBack(log: Log, i: nat)
    requires i < |log|
  {
    log[i].CallEntry? && log[i].call.usageId.Some? ==> HasRow(log[..i], log[i].user, log[i].call.usageId.value)
  }

  ghost predicate AllPointBack(log: Log) { forall i :: 0 <= i < |log| ==> PointsBack(log, i) }

  ghost predicate LastUsageKnown(s: State) {
    forall k, u :: k in s.lastUsage && IsUser(u) && Owns(u, k) ==> HasRow(s.log, u, s.lastUsage[k].ref.id)
  }

  ghost predicate Grounded(s: State) { AllPointBack(s.log) && LastUsageKnown(s) }

  lemma HasRowLater(log: Log, later: Log, user: string, id: string)
    requires log <= later && HasRow(log, user, id)
    ensures HasRow(later, user, id)
  {
    var j :| 0 <= j < |log| && IsRow(log[j], user, id);
    assert IsRow(later[j], user, id);
  }

  /** One more entry, pointing back if it is a call. */
  lemma OneMorePointsBack(log: Log, e: Entry)
    requires AllPointBack(log)
    requires e.CallEntry? && e.call.usageId.Some? ==> HasRow(log, e.user, e.call.usageId.value)
    ensures AllPointBack(log + [e])
  {
    var all := log + [e];
    forall i | 0 <= i < |all| ensures PointsBack(all, i) {
      if i < |log| {
        assert all[..i] == log[..i] && PointsBack(log, i);
      } else {
        assert all[..i] == log;
      }
    }
  }

  lemma {:induction false} CallsPointBack(log: Log, u: string, ws: seq<Waiting>, ref: UsageRef, source: string,
                                          kind: Kind, key: string)
    requires AllPointBack(log) && HasRow(log, u, ref.id)
    ensures AllPointBack(log + CallsFor(u, ws, ref, source, kind, key))
    decreases |ws|
  {
    if ws == [] {
      assert log + [] == log;
    } else {
      var rest := log + CallsFor(u, ws[..|ws| - 1], ref, source, kind, key);
      var w := ws[|ws| - 1];
      var e := CallEntry(u, CallFor(u, w, Some(ref), ref.sessionId, source), Slot(kind, key, w.id));
      CallsPointBack(log, u, ws[..|ws| - 1], ref, source, kind, key);
      HasRowLater(log, rest, u, ref.id);
      OneMorePointsBack(rest, e);
      assert rest + [e] == log + CallsFor(u, ws, ref, source, kind, key);
    }
  }

  /** Changes that keep the last usages and only lengthen a sound log. */
  lemma GroundedAfter(s: State, s': State)
    requires Grounded(s) && s.log <= s'.log && AllPointBack(s'.log)
    requires s'.lastUsage == s.lastUsage
    ensures Grounded(s')
  {
    forall k, u | k in s'.lastUsage && IsUser(u) && Owns(u, k) ensures HasRow(s'.log, u, s'.lastUsage[k].ref.id) {
      HasRowLater(s.log, s'.log, u, s.lastUsage[k].ref.id);
    }
  }

  lemma SayIsGrounded(s: State, e: Entry)
    requires Grounded(s) && !e.CallEntry?
    ensures Grounded(Say(s, e))
    ensures e.UsageEntry? && e.ref.Some? ==> HasRow(Say(s, e).log, e.user, e.ref.value.id)
  {
    OneMorePointsBack(s.log, e);
    GroundedAfter(s, Say(s, e));
    if e.UsageEntry? && e.ref.Some? { assert IsRow(Say(s, e).log[|s.log|], e.user, e.ref.value.id); }
  }

  lemma MovedIsGrounded(s: State, kind: Kind, b: Buffer, calls: Log)
    requires Grounded(s) && AllPointBack(s.log + calls)
    ensures Grounded(Moved(s, kind, b, calls))
  {
    GroundedAfter(s, Moved(s, kind, b, calls));
  }

  lemma FinishedIsGrounded(s: State, u: string, id: string, call: string, d: Option<int>, session: Option<string>)
    requires IsUser(u) && Grounded(s)
    ensures Grounded(Finished(s, u, Scoped(u, id), call, d, session))
  {
    var key := Scoped(u, id);
    if Find(At(s.claude, key), call).Some? {
      var s' := Finished(s, u, key, call, d, session);
      var e := s'.log[|s.log|];
      ScopedIsInjective(u, u, id, id);
      assert e.call.usageId.Some? ==> key in s.lastUsage && e.call.usageId.value == s.lastUsage[key].ref.id;
      OneMorePointsBack(s.log, e);
      MovedIsGrounded(s, ClaudeTools, Put(s.claude, key, Without(s.claude[key], call)), [e]);
    }
  }

  lemma FlushedIsGrounded(s: State, u: string, key: string, ref: UsageRef, startMs: int)
    requires Grounded(s) && HasRow(s.log, u, ref.id)
    ensures Grounded(Flushed(s, u, key, ref, startMs)) && HasRow(Flushed(s, u, key, ref, startMs).log, u, ref.id)
  {
    if key in s.claude {
      var early := Since(s.claude[key], startMs, false);
      var calls := CallsFor(u, early, ref, "claude-code", ClaudeTools, key);
      CallsPointBack(s.log, u, early, ref, "claude-code", ClaudeTools, key);
      MovedIsGrounded(s, ClaudeTools, Put(s.claude, key, Since(s.claude[key], startMs, true)), calls);
      HasRowLater(s.log, s.log + calls, u, ref.id);
    }
  }

  lemma SettledIsGrounded(s: State, u: string, kind: Kind, key: string, ref: Option<UsageRef>, source: string)
    requires Grounded(s) && (ref.Some? ==> HasRow(s.log, u, ref.value.id))
    ensures Grounded(Settled(s, u, kind, key, ref, source))
  {
    var b := BufferOf(s, kind);
    var calls := if ref.None? then [] else CallsFor(u, At(b, key), ref.value, source, kind, key);
    if ref.Some? {
      CallsPointBack(s.log, u, At(b, key), ref.value, source, kind, key);
    } else {
      assert s.log + [] == s.log;
    }
    MovedIsGrounded(s, kind, b - {key}, calls);
  }

  lemma LastUsedIsGrounded(s: State, u: string, id: string, last: LastUsage)
    requires IsUser(u) && Grounded(s) && HasRow(s.log, u, last.ref.id)
    ensures Grounded(LastUsed(s, Scoped(u, id), last))
  {
    var s' := LastUsed(s, Scoped(u, id), last);
    forall k, v | k in s'.lastUsage && IsUser(v) && Owns(v, k) ensures HasRow(s'.log, v, s'.lastUsage[k].ref.id) {
      if k == Scoped(u, id) { ScopedIsInjective(u, v, id, id); }
    }
  }

  lemma ClaudeRecordedIsGrounded(s: State, u: string, q: Request, ref: Option<UsageRef>, prompt: Option<string>)
    requires IsUser(u) && Grounded(s)
    ensures Grounded(ClaudeRecorded(s, u, q, ref, prompt))
  {
    var said := Say(s, UsageEntry(u, q, ref));
    SayIsGrounded(s, UsageEntry(u, q, ref));
    if ref.Some? && Present(prompt) {
      FlushedIsGrounded(said, u, Scoped(u, prompt.value), ref.value, WindowStartMs(q));
      LastUsedIsGrounded(Flushed(said, u, Scoped(u, prompt.value), ref.value, WindowStartMs(q)), u, prompt.value,
                         LastUsage(ref.value, q.ts / 1000));
    }
  }

  lemma CodexRecordedIsGrounded(s: State, u: string, q: Request, ref: Option<UsageRef>, conversation: Option<string>)
    requires Grounded(s)
    ensures Grounded(CodexRecorded(s, u, q, ref, conversation))
  {
    var said := Say(s, UsageEntry(u, q, ref));
    SayIsGrounded(s, UsageEntry(u, q, ref));
    if Present(conversation) {
      var key := Scoped(u, conversation.value);
      GroundedAfter(said, TurnEnded(said, key));
      SettledIsGrounded(TurnEnded(said, key), u, CodexTools, key, ref, "codex");
    }
  }

  lemma MessageRecordedIsGrounded(s: State, u: string, q: Request, ref: Option<UsageRef>, message: Option<string>,
                                  source: string)
    requires Grounded(s)
    ensures Grounded(MessageRecorded(s, u, q, ref, message, source))
  {
    SayIsGrounded(s, UsageEntry(u, q, ref));
    if Present(message) {
      SettledIsGrounded(Say(s, UsageEntry(u, q, ref)), u, MessageTools, Scoped(u, message.value), ref, source);
    }
  }

  lemma BufferedIsGrounded(s: State, kind: Kind, key: string, w: Waiting)
    requires Grounded(s)
    ensures Grounded(Buffered(s, kind, key, w))
  {
    GroundedAfter(s, Buffered(s, kind, key, w));
  }

  lemma HandleToolIsGrounded(s: State, u: string, r: LogRecord)
    requires IsUser(u) && Grounded(s)
    ensures Grounded(HandleTool(s, u, r))
  {
    var name := EventName(r);
    if name == "tool_decision" && r.service == "claude-code" {
      BufferedIsGrounded(s, ClaudeTools, Scoped(u, OrEmpty(r.attrs.promptDotId)), Decided(r, r.attrs.toolUseId, None));
    } else if name == "tool_result" && r.service == "claude-code" {
      FinishedIsGrounded(s, u, OrEmpty(r.attrs.promptDotId), OrEmpty(r.attrs.toolUseId), r.attrs.durationMs,
        SessionOf(r));
    } else if name == "codex.tool_decision" && IsCodex(r.service) {
      BufferedIsGrounded(s, CodexTools, Scoped(u, OrEmpty(r.attrs.conversationId)), Decided(r, r.attrs.callId, None));
    } else if name == "codex.tool_result" && IsCodex(r.service) {
      CodexResultIsGrounded(s, u, r);
    } else if IsMessageService(r.service) && name == r.service + ".tool_decision" {
      BufferedIsGrounded(s, MessageTools, Scoped(u, OrEmpty(r.attrs.messageId)),
        Decided(r, r.attrs.callId, r.attrs.durationMs));
    }
  }

  lemma CodexResultIsGrounded(s: State, u: string, r: LogRecord)
    requires Grounded(s)
    ensures Grounded(CodexResult(s, u, r))
  {
    if r.attrs.durationMs.Some? {
      var d := r.attrs.durationMs.value;
      SayIsGrounded(s, DurationEntry(u, Scoped(u, OrEmpty(r.attrs.callId)), "codex", d));
      GroundedAfter(s, Enriched(s, Scoped(u, OrEmpty(r.attrs.conversationId)), OrEmpty(r.attrs.callId), d));
    }
  }

  lemma ClaudeUsageIsGrounded(s: State, env: Env, u: string, ip: Option<string>, r: LogRecord)
    requires IsUser(u) && Grounded(s)
    ensures Grounded(ClaudeUsage(s, env, u, ip, r))
  {
    var session := OrEmpty(SessionOf(r));
    var s1 := ConsumePrompt(s, u, r, session);
    GroundedAfter(s, s1);
    var q := ClaudeRequest(env, u, ip, r, PromptLengthFor(s, u, r, session));
    ClaudeRecordedIsGrounded(s1, u, q, RowOf(env, s.log, u, q), r.attrs.promptDotId);
  }

  lemma MessageUsageIsGrounded(s: State, env: Env, u: string, ip: Option<string>, r: LogRecord)
    requires Grounded(s)
    ensures Grounded(MessageUsage(s, env, u, ip, r))
  {
    var q := MessageRequest(env, u, ip, r);
    MessageRecordedIsGrounded(s, u, q, RowOf(env, s.log, u, q), r.attrs.messageId, r.service);
  }

  lemma CodexStateIsGrounded(s: State, u: string, now: int, r: LogRecord)
    requires Grounded(s)
    ensures Grounded(CodexState(s, u, now, r))
  {
    GroundedAfter(s, CodexState(s, u, now, r));
  }

  lemma HandleUsageIsGrounded(s: State, env: Env, u: string, ip: Option<string>, now: int, r: LogRecord)
    requires IsUser(u) && Grounded(s)
    ensures Grounded(HandleUsage(s, env, u, ip, now, r))
  {
    var name := EventName(r);
    if (name == "claude_code.api_request" || name == "api_request") && r.service == "claude-code" {
      ClaudeUsageIsGrounded(s, env, u, ip, r);
    } else if name == "codex.sse_event" && IsCodex(r.service) {
      if IsStateEvent(r) { CodexStateIsGrounded(s, u, now, r); } else { CodexUsageIsGrounded(s, env, u, ip, r); }
    } else if (name == "codex.api_request" || name == "codex.websocket_request") && IsCodex(r.service) {
      CodexStateIsGrounded(s, u, now, r);
    } else if IsMessageService(r.service) && name == r.service + ".message_completed" {
      MessageUsageIsGrounded(s, env, u, ip, r);
    }
  }

  lemma CodexUsageIsGrounded(s: State, env: Env, u: string, ip: Option<string>, r: LogRecord)
    requires Grounded(s)
    ensures Grounded(CodexUsage(s, env, u, ip, r))
  {
    if CompletesCodex(r) {
      var t := if Present(r.attrs.conversationId) then TurnAt(s, Scoped(u, r.attrs.conversationId.value)) else None;
      var q := CodexRequest(env, u, ip, r, t, PromptLengthFor(s, u, r, ""));
      var s1 := ConsumePrompt(s, u, r, "");
      GroundedAfter(s, s1);
      CodexRecordedIsGrounded(s1, u, q, RowOf(env, s.log, u, q), r.attrs.conversationId);
    }
  }

  /** In every run, a recorded tool call that names a usage row names one recorded before it, for the same user. */
  lemma {:induction false} CallsPointToOwnRows(env: Env, steps: seq<Step>)
    requires StepsOfUsers(steps)
    ensures Grounded(AfterAll(EMPTY, env, steps))
    decreases |steps|
  {
    if steps != [] {
      var rest, step := steps[..|steps| - 1], steps[|steps| - 1];
      var s := AfterAll(EMPTY, env, rest);
      CallsPointToOwnRows(env, rest);
      match step
      case Sweep(now) =>
      case Event(u, ip, now, r) =>
        var s1 := NotePrompt(s, u, now, r);
        GroundedAfter(s, s1);
        HandleToolIsGrounded(s1, u, r);
        HandleUsageIsGrounded(HandleTool(s1, u, r), env, u, ip, now, r);
    }
  }
}
