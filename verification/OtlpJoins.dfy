/** Events that belong together find each other, in one post or over many, whatever else arrives in between: the start
    and the completion of a Codex turn, a Claude tool and its request, prompt lengths and the usage that follows. */
module OtlpJoins {
  import opened Basics
  import opened Requests
  import opened Correlation
  import opened Otlp
  import opened OtlpFates
  import opened OtlpRecords

  // ---------------------------------------------------------------- what other steps leave alone

  predicate SameLastUsage(s: State, s': State, key: string) {
    (key in s'.lastUsage <==> key in s.lastUsage) && (key in s.lastUsage ==> s'.lastUsage[key] == s.lastUsage[key])
  }

  /** The two tables of the Claude clients, and the two that no tool event touches. */
  predicate SameClaude(s: State, s': State) { s'.claude == s.claude && s'.lastUsage == s.lastUsage }
  predicate SameRest(s: State, s': State) { s'.turns == s.turns && s'.prompts == s.prompts }

  /** The call with this id waits under the key as before, or still does not, and the last usage is the same. */
  predicate SameCall(s: State, s': State, key: string, id: string) {
    Find(At(s'.claude, key), id) == Find(At(s.claude, key), id) && SameLastUsage(s, s', key)
  }

  lemma OtherKey(u: string, v: string, i: string, j: string)
    requires IsUser(u) && IsUser(v) && !(u == v && i == j)
    ensures Scoped(u, i) != Scoped(v, j)
  {
    ScopedIsInjective(u, v, i, j);
  }

  lemma {:induction false} NotedKeepsOthers(ws: seq<Waiting>, w: Waiting, id: string)
    requires w.id != id
    ensures Find(Noted(ws, w), id) == Find(ws, id)
  {
    if ws == [] {
      assert [w][1..] == [];
    } else if ws[0].id == w.id {
      assert ([Redelivered(ws[0], w)] + ws[1..])[1..] == ws[1..];
    } else {
      NotedKeepsOthers(ws[1..], w, id);
      assert ([ws[0]] + Noted(ws[1..], w))[1..] == Noted(ws[1..], w);
    }
  }

  lemma {:induction false} NewIsFound(ws: seq<Waiting>, w: Waiting)
    requires !Holds(ws, w.id)
    ensures Find(Noted(ws, w), w.id) == Some(w)
  {
    if ws != [] {
      HoldsCons(ws[0], ws[1..]);
      assert ws == [ws[0]] + ws[1..];
      NewIsFound(ws[1..], w);
      assert ([ws[0]] + Noted(ws[1..], w))[1..] == Noted(ws[1..], w);
    }
  }

  lemma {:induction false} WithoutKeepsOthers(ws: seq<Waiting>, other: string, id: string)
    requires other != id
    ensures Find(Without(ws, other), id) == Find(ws, id)
  {
    if ws != [] && ws[0].id != other {
      WithoutKeepsOthers(ws[1..], other, id);
      assert ([ws[0]] + Without(ws[1..], other))[1..] == Without(ws[1..], other);
    }
  }

  lemma BufferedSpares(s: State, kind: Kind, other: string, w: Waiting, key: string, id: string)
    requires kind.ClaudeTools? ==> other != key || w.id != id
    ensures SameCall(s, Buffered(s, kind, other, w), key, id)
  {
    if kind.ClaudeTools? && other == key { NotedKeepsOthers(At(s.claude, key), w, id); }
  }

  lemma FinishedSpares(s: State, v: string, other: string, call: string, d: Option<int>, session: Option<string>,
                       key: string, id: string)
    requires other != key || call != id
    ensures SameCall(s, Finished(s, v, other, call, d, session), key, id)
  {
    if other == key && Find(At(s.claude, key), call).Some? { WithoutKeepsOthers(s.claude[key], call, id); }
  }

  lemma CodexResultSpares(s: State, v: string, r: LogRecord)
    ensures SameClaude(s, CodexResult(s, v, r)) && SameRest(s, CodexResult(s, v, r))
  {
    var key, call := Scoped(v, OrEmpty(r.attrs.conversationId)), OrEmpty(r.attrs.callId);
    EnrichedSpares(s, key, call, OrZero(r.attrs.durationMs));
    SaySpares(s, DurationEntry(v, Scoped(v, call), "codex", OrZero(r.attrs.durationMs)));
  }

  lemma EnrichedSpares(s: State, key: string, id: string, d: int)
    ensures SameClaude(s, Enriched(s, key, id, d)) && SameRest(s, Enriched(s, key, id, d))
  {
  }

  lemma SaySpares(s: State, e: Entry)
    ensures SameClaude(s, Say(s, e)) && SameRest(s, Say(s, e))
  {
  }

  /** The id under which a tool event's call waits. */
  function CallId(r: LogRecord): string { Or(r.attrs.toolUseId, r.generatedId) }

  /** A Claude request, or an event of the tool call with this id. */
  predicate TouchesCall(r: LogRecord, id: string) {
    IsClaudeRequest(r) ||
    (r.service == "claude-code" && (EventName(r) == "tool_decision" || EventName(r) == "tool_result") &&
      CallId(r) == id)
  }

  lemma ToolSparesCall(s: State, v: string, r: LogRecord, key: string, id: string)
    requires r.attrs.promptDotId.Some? && Scoped(v, r.attrs.promptDotId.value) == key ==> !TouchesCall(r, id)
    ensures SameCall(s, HandleTool(s, v, r), key, id)
  {
    var name := EventName(r);
    if name == "tool_decision" && r.service == "claude-code" {
      if Present(r.attrs.promptDotId) {
        BufferedSpares(s, ClaudeTools, Scoped(v, r.attrs.promptDotId.value), Decided(r, r.attrs.toolUseId, None), key,
          id);
      }
    } else if name == "tool_result" && r.service == "claude-code" {
      if Present(r.attrs.promptDotId) && Present(r.attrs.toolUseId) {
        FinishedSpares(s, v, Scoped(v, r.attrs.promptDotId.value), r.attrs.toolUseId.value, r.attrs.durationMs,
          SessionOf(r), key, id);
      }
    } else if name == "codex.tool_decision" && IsCodex(r.service) {
      BufferedSpares(s, CodexTools, Scoped(v, OrEmpty(r.attrs.conversationId)), Decided(r, r.attrs.callId, None), key,
        id);
    } else if name == "codex.tool_result" && IsCodex(r.service) {
      CodexResultSpares(s, v, r);
    } else if IsMessageService(r.service) && name == r.service + ".tool_decision" {
      BufferedSpares(s, MessageTools, Scoped(v, OrEmpty(r.attrs.messageId)),
        Decided(r, r.attrs.callId, r.attrs.durationMs), key, id);
    }
  }

  lemma PromptsSpare(s: State, v: string, now: int, r: LogRecord, session: string)
    ensures NotePrompt(s, v, now, r) == s.(prompts := NotePrompt(s, v, now, r).prompts)
    ensures ConsumePrompt(s, v, r, session) == s.(prompts := ConsumePrompt(s, v, r, session).prompts)
  {
  }

  /** A recorded request changes nothing of other prompts. */
  lemma ClaudeRecordedSpares(s: State, v: string, q: Request, ref: Option<UsageRef>, prompt: Option<string>,
                             key: string)
    requires prompt.Some? ==> Scoped(v, prompt.value) != key
    ensures var s' := ClaudeRecorded(s, v, q, ref, prompt);
      At(s'.claude, key) == At(s.claude, key) && SameLastUsage(s, s', key)
  {
  }

  lemma ClaudeUsageSpares(s: State, env: Env, v: string, ip: Option<string>, r: LogRecord, key: string, id: string)
    requires r.attrs.promptDotId.Some? ==> Scoped(v, r.attrs.promptDotId.value) != key
    ensures SameCall(s, ClaudeUsage(s, env, v, ip, r), key, id)
  {
    var session := OrEmpty(SessionOf(r));
    var q := ClaudeRequest(env, v, ip, r, PromptLengthFor(s, v, r, session));
    PromptsSpare(s, v, 0, r, session);
    ClaudeRecordedSpares(ConsumePrompt(s, v, r, session), v, q, RowOf(env, s.log, v, q), r.attrs.promptDotId, key);
  }

  /** The usage events of the other clients do not touch the Claude tables. */
  lemma OtherUsageSparesCall(s: State, env: Env, v: string, ip: Option<string>, now: int, r: LogRecord)
    requires !IsClaudeRequest(r)
    ensures SameClaude(s, HandleUsage(s, env, v, ip, now, r))
  {
    CodexStateSpares(s, v, now, r);
    if EventName(r) == "codex.sse_event" && IsCodex(r.service) && !IsStateEvent(r) {
      CodexUsageSpares(s, env, v, ip, r);
    } else if IsMessageService(r.service) && EventName(r) == r.service + ".message_completed" {
      MessageUsageSpares(s, env, v, ip, r);
    }
  }

  lemma CodexStateSpares(s: State, v: string, now: int, r: LogRecord)
    ensures SameClaude(s, CodexState(s, v, now, r)) && CodexState(s, v, now, r).prompts == s.prompts
  {
  }

  lemma CodexUsageSpares(s: State, env: Env, v: string, ip: Option<string>, r: LogRecord)
    ensures SameClaude(s, CodexUsage(s, env, v, ip, r))
  {
    if CompletesCodex(r) {
      var q, ref := CodexUsageRecords(s, env, v, ip, r);
      PromptsSpare(s, v, 0, r, "");
      CodexRecordedSpares(ConsumePrompt(s, v, r, ""), v, q, ref, r.attrs.conversationId);
    }
  }

  lemma CodexUsageRecords(s: State, env: Env, v: string, ip: Option<string>, r: LogRecord)
    returns (q: Request, ref: Option<UsageRef>)
    requires CompletesCodex(r)
    ensures CodexUsage(s, env, v, ip, r) ==
            CodexRecorded(ConsumePrompt(s, v, r, ""), v, q, ref, r.attrs.conversationId)
  {
    var t := if Present(r.attrs.conversationId) then TurnAt(s, Scoped(v, r.attrs.conversationId.value)) else None;
    q := CodexRequest(env, v, ip, r, t, PromptLengthFor(s, v, r, ""));
    ref := RowOf(env, s.log, v, q);
  }

  lemma CodexRecordedSpares(s: State, v: string, q: Request, ref: Option<UsageRef>, conversation: Option<string>)
    ensures SameClaude(s, CodexRecorded(s, v, q, ref, conversation))
  {
    var said := Say(s, UsageEntry(v, q, ref));
    if Present(conversation) {
      SettledSpares(TurnEnded(said, Scoped(v, conversation.value)), v, CodexTools, Scoped(v, conversation.value), ref,
        "codex");
    }
  }

  lemma SettledSpares(s: State, v: string, kind: Kind, key: string, ref: Option<UsageRef>, source: string)
    requires !kind.ClaudeTools?
    ensures SameClaude(s, Settled(s, v, kind, key, ref, source))
  {
  }

  lemma MessageUsageSpares(s: State, env: Env, v: string, ip: Option<string>, r: LogRecord)
    ensures SameClaude(s, MessageUsage(s, env, v, ip, r)) && SameRest(s, MessageUsage(s, env, v, ip, r))
  {
  }

  lemma EventSparesCall(s: State, env: Env, v: string, ip: Option<string>, now: int, r: LogRecord, key: string,
                        id: string)
    requires r.attrs.promptDotId.Some? && Scoped(v, r.attrs.promptDotId.value) == key ==> !TouchesCall(r, id)
    ensures SameCall(s, Handle(s, env, v, ip, now, r), key, id)
  {
    if !IsRetired(r.service) {
      var noted := NotePrompt(s, v, now, r);
      var tooled := HandleTool(noted, v, r);
      PromptsSpare(s, v, now, r, "");
      ToolSparesCall(noted, v, r, key, id);
      if IsClaudeRequest(r) {
        ClaudeUsageSpares(tooled, env, v, ip, r, key, id);
      } else {
        OtherUsageSparesCall(tooled, env, v, ip, now, r);
      }
    }
  }

  // ---------------------------------------------------------------- Claude tools and their request

  /** A step that leaves a tool call to its request: a sweep that finds neither the prompt's calls, if this is one of
      them, nor its last request older than ten minutes; an event of another user or another prompt; or one of this
      prompt about another tool call. */
  predicate SparesCall(s: State, step: Step, u: string, prompt: string, id: string) {
    match step
    case Sweep(now) =>
      var key := Scoped(u, prompt);
      (Holds(At(s.claude, key), id) ==> IsFreshList(At(s.claude, key), now)) &&
      (key in s.lastUsage ==> now / 1000 - s.lastUsage[key].tsMs <= STALE_MS)
    case Event(v, _, _, r) =>
      IsUser(v) && !(v == u && r.attrs.promptDotId == Some(prompt) && TouchesCall(r, id))
  }

  predicate AllSpareCall(s: State, env: Env, steps: seq<Step>, u: string, prompt: string, id: string) {
    forall n :: 0 <= n < |steps| ==> SparesCall(AfterAll(s, env, steps[..n]), steps[n], u, prompt, id)
  }

  lemma SweepSparesCall(s: State, now: int, u: string, prompt: string, id: string)
    requires SparesCall(s, Sweep(now), u, prompt, id)
    ensures SameCall(s, Evict(s, now), Scoped(u, prompt), id)
  {
  }

  lemma {:induction false} CallIsSpared(s: State, env: Env, steps: seq<Step>, u: string, prompt: string, id: string)
    requires IsUser(u) && AllSpareCall(s, env, steps, u, prompt, id)
    ensures SameCall(s, AfterAll(s, env, steps), Scoped(u, prompt), id)
    decreases |steps|
  {
    if steps != [] {
      var rest, step := steps[..|steps| - 1], steps[|steps| - 1];
      var before := AfterAll(s, env, rest);
      assert AllSpareCall(s, env, rest, u, prompt, id) by {
        forall n | 0 <= n < |rest| ensures SparesCall(AfterAll(s, env, rest[..n]), rest[n], u, prompt, id) {
          assert rest[..n] == steps[..n];
        }
      }
      CallIsSpared(s, env, rest, u, prompt, id);
      assert SparesCall(before, step, u, prompt, id);
      match step
      case Sweep(now) => SweepSparesCall(before, now, u, prompt, id);
      case Event(v, ip, now, r) =>
        if r.attrs.promptDotId.Some? && Scoped(v, r.attrs.promptDotId.value) == Scoped(u, prompt) {
          ScopedIsInjective(v, u, r.attrs.promptDotId.value, prompt);
        }
        EventSparesCall(before, env, v, ip, now, r, Scoped(u, prompt), id);
    }
  }

  /** Steps keep the buffers proper and only lengthen the log. */
  lemma {:induction false} StepsKeepLog(s: State, env: Env, steps: seq<Step>)
    requires Proper(s)
    ensures Proper(AfterAll(s, env, steps)) && s.log <= AfterAll(s, env, steps).log
    decreases |steps|
  {
    if steps != [] {
      var before, step := AfterAll(s, env, steps[..|steps| - 1]), steps[|steps| - 1];
      StepsKeepLog(s, env, steps[..|steps| - 1]);
      FateIsTrue(before, env, step, Slot(ClaudeTools, "", ""));
      if step.Event? {
        var _ := EventIsAccounted(before, env, step.user, step.clientIp, step.now, step.record,
          Slot(ClaudeTools, "", ""));
      }
    }
  }

  predicate IsPromptStep(step: Step, u: string, prompt: string) {
    step.Event? && step.user == u && step.record.service == "claude-code" &&
    step.record.attrs.promptDotId == Some(prompt)
  }

  predicate IsToolStep(step: Step, u: string, prompt: string, id: string, name: string) {
    IsPromptStep(step, u, prompt) && EventName(step.record) == name && step.record.attrs.toolUseId == Some(id)
  }

  /** A request that recording does not skip, and what it leaves. */
  lemma RequestIsRecorded(s: State, env: Env, step: Step, u: string, prompt: string)
    requires IsPromptStep(step, u, prompt) && IsClaudeRequest(step.record) && prompt != ""
    requires !Skipped(ClaudeRequest(env, u, step.clientIp, step.record, 0))
    ensures var s' := After(s, env, step); var key := Scoped(u, prompt);
      |s.log| < |s'.log| && s'.log[|s.log|].UsageEntry? && s'.log[|s.log|].user == u && s'.log[|s.log|].ref.Some? &&
      key in s'.lastUsage && s'.lastUsage[key].ref == s'.log[|s.log|].ref.value
  {
    var r := step.record;
    var session := OrEmpty(SessionOf(r));
    var q := ClaudeRequest(env, u, step.clientIp, r, PromptLengthFor(s, u, r, session));
    var consumed := ConsumePrompt(s, u, r, session);
    OneKindOfEvent(s, env, u, step.clientIp, step.now, r);
    PromptsSpare(s, u, step.now, r, session);
    assert After(s, env, step) == ClaudeUsage(s, env, u, step.clientIp, r);
    RecordedRequest(consumed, u, q, RowOf(env, s.log, u, q), r.attrs.promptDotId);
  }

  lemma RecordedRequest(s: State, u: string, q: Request, ref: Option<UsageRef>, prompt: Option<string>)
    requires ref.Some? && Present(prompt)
    ensures var s' := ClaudeRecorded(s, u, q, ref, prompt); var key := Scoped(u, prompt.value);
      |s.log| < |s'.log| && s'.log[|s.log|] == UsageEntry(u, q, ref) &&
      key in s'.lastUsage && s'.lastUsage[key] == LastUsage(ref.value, q.ts / 1000)
  {
  }

  lemma DecisionWaits(s: State, env: Env, step: Step, u: string, prompt: string, id: string)
    requires IsToolStep(step, u, prompt, id, "tool_decision") && prompt != "" && id != ""
    requires !Holds(At(s.claude, Scoped(u, prompt)), id)
    ensures var s' := After(s, env, step); var key := Scoped(u, prompt);
      Find(At(s'.claude, key), id) == Some(Decided(step.record, Some(id), None)) && SameLastUsage(s, s', key)
  {
    NewIsFound(At(s.claude, Scoped(u, prompt)), Decided(step.record, Some(id), None));
    OneKindOfEvent(HandleTool(s, u, step.record), env, u, step.clientIp, step.now, step.record);
    assert After(s, env, step) == ClaudeDecision(s, u, step.record);
  }

  lemma ResultRecords(s: State, env: Env, step: Step, u: string, prompt: string, id: string, w: Waiting)
    requires IsToolStep(step, u, prompt, id, "tool_result") && prompt != "" && id != "" && Proper(s)
    requires Find(At(s.claude, Scoped(u, prompt)), id) == Some(w) && Scoped(u, prompt) in s.lastUsage
    ensures var s' := After(s, env, step); var slot := Slot(ClaudeTools, Scoped(u, prompt), id);
      !Waits(s', slot) &&
      s'.log == s.log + [CallEntry(u, CallOf(u, w, s.lastUsage[slot.key].ref, step.record), slot)]
  {
    var key := Scoped(u, prompt);
    ProperAt(s, ClaudeTools, key);
    WithoutHolds(s.claude[key], id);
    OneKindOfEvent(HandleTool(s, u, step.record), env, u, step.clientIp, step.now, step.record);
    assert After(s, env, step) == ClaudeResult(s, u, step.record);
  }

  /** The call recorded for a decision when its result comes. */
  function CallOf(u: string, w: Waiting, ref: UsageRef, result: LogRecord): ToolCall {
    ToolCall(Scoped(u, w.id), Some(ref.id), if Present(ref.sessionId) then ref.sessionId else SessionOf(result), w.name,
             result.attrs.durationMs, u, "claude-code", w.ts)
  }

  /** A tool decided after a recorded request of its prompt, and finished before the next one, is recorded against that
      request's row and session, with the name and time of its decision and the duration of its result, and nothing
      keeps waiting for it. The three events may arrive in different posts, with anything in between that is not about
      this call: other users, other prompts, other tools of the prompt, and sweeps that find the prompt in use. */
  lemma ToolGoesToItsRequest(s: State, env: Env, u: string, prompt: string, id: string, request: Step,
                             first: seq<Step>, decision: Step, second: seq<Step>, result: Step)
    requires Proper(s) && IsUser(u) && prompt != "" && id != ""
    requires IsPromptStep(request, u, prompt) && IsClaudeRequest(request.record)
    requires !Skipped(ClaudeRequest(env, u, request.clientIp, request.record, 0))
    requires IsToolStep(decision, u, prompt, id, "tool_decision") && IsToolStep(result, u, prompt, id, "tool_result")
    requires !Waits(After(s, env, request), Slot(ClaudeTools, Scoped(u, prompt), id))
    requires AllSpareCall(After(s, env, request), env, first, u, prompt, id)
    requires AllSpareCall(AfterAll(s, env, [request] + first + [decision]), env, second, u, prompt, id)
    ensures var before := AfterAll(s, env, [request] + first + [decision] + second);
      var after, slot := After(before, env, result), Slot(ClaudeTools, Scoped(u, prompt), id);
      |s.log| < |before.log| && before.log[|s.log|].UsageEntry? && before.log[|s.log|].user == u &&
      before.log[|s.log|].ref.Some? && !Waits(after, slot) &&
      after.log == before.log + [CallEntry(u,
        CallOf(u, Decided(decision.record, Some(id), None), before.log[|s.log|].ref.value, result.record), slot)]
  {
    var s1 := After(s, env, request);
    var s2 := AfterAll(s1, env, first);
    var s3 := After(s2, env, decision);
    var s4 := AfterAll(s3, env, second);
    Chained(s, env, request, first, decision, second);
    StepsKeepLog(s, env, [request] + first + [decision] + second);
    AfterOne(s, env, request);
    StepsKeepLog(s, env, [request]);
    StepsKeepLog(s1, env, first + [decision] + second);
    RequestIsRecorded(s, env, request, u, prompt);
    CallIsSpared(s1, env, first, u, prompt, id);
    DecisionWaits(s2, env, decision, u, prompt, id);
    CallIsSpared(s3, env, second, u, prompt, id);
    ResultRecords(s4, env, result, u, prompt, id, Decided(decision.record, Some(id), None));
  }

  /** Two events, and what comes after each of them. */
  lemma Chained(s: State, env: Env, one: Step, first: seq<Step>, two: Step, second: seq<Step>)
    ensures AfterAll(s, env, [one] + first + [two]) == After(AfterAll(After(s, env, one), env, first), env, two)
    ensures AfterAll(s, env, [one] + first + [two] + second) ==
            AfterAll(AfterAll(s, env, [one] + first + [two]), env, second)
    ensures AfterAll(s, env, [one] + first + [two] + second) ==
            AfterAll(After(s, env, one), env, first + [two] + second)
  {
    AfterConcat(s, env, [one] + first + [two], second);
    AfterConcat(s, env, [one] + first, [two]);
    AfterConcat(s, env, [one], first);
    AfterConcat(s, env, [one], first + [two] + second);
    assert [one] + (first + [two] + second) == [one] + first + [two] + second;
    AfterOne(s, env, one);
    AfterOne(AfterAll(s, env, [one] + first), env, two);
  }

  // ---------------------------------------------------------------- Codex turns

  /** A record that starts, times or completes a Codex turn. */
  predicate TouchesTurn(r: LogRecord) {
    IsCodex(r.service) &&
    (EventName(r) == "codex.api_request" || EventName(r) == "codex.websocket_request" ||
     (EventName(r) == "codex.sse_event" && (IsStateEvent(r) || CompletesCodex(r))))
  }

  /** A step that leaves a turn alone: a sweep within ten minutes of its beginning; an event of another user or another
      conversation; or one of this conversation that is not about the turn, like those of its tools. */
  predicate SparesTurn(step: Step, u: string, conversation: string, begun: int) {
    match step
    case Sweep(now) => now - begun <= STALE_MICROS
    case Event(v, _, _, r) =>
      IsUser(v) && !(v == u && r.attrs.conversationId == Some(conversation) && TouchesTurn(r))
  }

  lemma BufferedSparesRest(s: State, kind: Kind, key: string, w: Waiting)
    ensures SameRest(s, Buffered(s, kind, key, w))
  {
  }

  lemma FinishedSparesRest(s: State, v: string, key: string, id: string, d: Option<int>, session: Option<string>)
    ensures SameRest(s, Finished(s, v, key, id, d, session))
  {
  }

  lemma ToolSparesRest(s: State, v: string, r: LogRecord)
    ensures SameRest(s, HandleTool(s, v, r))
  {
    var name := EventName(r);
    if name == "tool_decision" && r.service == "claude-code" {
      BufferedSparesRest(s, ClaudeTools, Scoped(v, OrEmpty(r.attrs.promptDotId)), Decided(r, r.attrs.toolUseId, None));
    } else if name == "tool_result" && r.service == "claude-code" {
      FinishedSparesRest(s, v, Scoped(v, OrEmpty(r.attrs.promptDotId)), OrEmpty(r.attrs.toolUseId), r.attrs.durationMs,
        SessionOf(r));
    } else if name == "codex.tool_decision" && IsCodex(r.service) {
      BufferedSparesRest(s, CodexTools, Scoped(v, OrEmpty(r.attrs.conversationId)), Decided(r, r.attrs.callId, None));
    } else if name == "codex.tool_result" && IsCodex(r.service) {
      CodexResultSpares(s, v, r);
    } else if IsMessageService(r.service) && name == r.service + ".tool_decision" {
      BufferedSparesRest(s, MessageTools, Scoped(v, OrEmpty(r.attrs.messageId)),
        Decided(r, r.attrs.callId, r.attrs.durationMs));
    }
  }

  lemma ClaudeUsageSparesTurns(s: State, env: Env, v: string, ip: Option<string>, r: LogRecord)
    ensures ClaudeUsage(s, env, v, ip, r).turns == s.turns
  {
    PromptsSpare(s, v, 0, r, OrEmpty(SessionOf(r)));
  }

  lemma CodexUsageSparesOthers(s: State, env: Env, v: string, ip: Option<string>, r: LogRecord, key: string)
    requires r.attrs.conversationId.Some? ==> Scoped(v, r.attrs.conversationId.value) != key
    ensures TurnAt(CodexUsage(s, env, v, ip, r), key) == TurnAt(s, key)
  {
    PromptsSpare(s, v, 0, r, "");
  }

  lemma CodexStateSparesOthers(s: State, v: string, now: int, r: LogRecord, key: string)
    requires r.attrs.conversationId.Some? ==> Scoped(v, r.attrs.conversationId.value) != key
    ensures TurnAt(CodexState(s, v, now, r), key) == TurnAt(s, key)
  {
  }

  lemma UsageSparesTurn(s: State, env: Env, v: string, ip: Option<string>, now: int, r: LogRecord, key: string)
    requires r.attrs.conversationId.Some? && Scoped(v, r.attrs.conversationId.value) == key ==> !TouchesTurn(r)
    ensures TurnAt(HandleUsage(s, env, v, ip, now, r), key) == TurnAt(s, key)
  {
    var name := EventName(r);
    if IsClaudeRequest(r) {
      ClaudeUsageSparesTurns(s, env, v, ip, r);
    } else if TouchesTurn(r) {
      if name == "codex.sse_event" && !IsStateEvent(r) {
        CodexUsageSparesOthers(s, env, v, ip, r, key);
      } else {
        CodexStateSparesOthers(s, v, now, r, key);
      }
    } else if IsMessageService(r.service) && name == r.service + ".message_completed" {
      MessageUsageSpares(s, env, v, ip, r);
    }
  }

  lemma {:induction false} TurnIsSpared(s: State, env: Env, steps: seq<Step>, u: string, conversation: string)
    requires IsUser(u) && TurnAt(s, Scoped(u, conversation)).Some?
    requires AllSpareTurn(steps, u, conversation, s.turns[Scoped(u, conversation)].ts)
    ensures TurnAt(AfterAll(s, env, steps), Scoped(u, conversation)) == TurnAt(s, Scoped(u, conversation))
    decreases |steps|
  {
    if steps != [] {
      var step, key := steps[|steps| - 1], Scoped(u, conversation);
      var before := AfterAll(s, env, steps[..|steps| - 1]);
      TurnIsSpared(s, env, steps[..|steps| - 1], u, conversation);
      assert SparesTurn(step, u, conversation, s.turns[key].ts);
      if step.Event? && !IsRetired(step.record.service) {
        var r, v := step.record, step.user;
        var noted := NotePrompt(before, v, step.now, r);
        if r.attrs.conversationId.Some? && Scoped(v, r.attrs.conversationId.value) == key {
          ScopedIsInjective(v, u, r.attrs.conversationId.value, conversation);
        }
        PromptsSpare(before, v, step.now, r, "");
        ToolSparesRest(noted, v, r);
        UsageSparesTurn(HandleTool(noted, v, r), env, v, step.clientIp, step.now, r, key);
      }
    }
  }

  predicate AllSpareTurn(steps: seq<Step>, u: string, conversation: string, begun: int) {
    forall k :: 0 <= k < |steps| ==> SparesTurn(steps[k], u, conversation, begun)
  }

  /** The posts of other users leave the turn alone as long as they come within ten minutes of its start, sweeps and
      all. */
  lemma {:induction false} OtherPostsSpareTurn(posts: seq<Post>, limit: nat, u: string, conversation: string,
                                               begun: int)
    requires forall i :: 0 <= i < |posts| ==>
      IsUser(posts[i].user) && posts[i].user != u && posts[i].now - begun <= STALE_MICROS
    ensures AllSpareTurn(StepsOf(posts, limit), u, conversation, begun)
    decreases |posts|
  {
    if posts != [] {
      var p := posts[|posts| - 1];
      OtherPostsSpareTurn(posts[..|posts| - 1], limit, u, conversation, begun);
      OtherEventsSpareTurn(p, Accepted(p.records, limit), u, conversation, begun);
      assert AllSpareTurn([Sweep(p.now)], u, conversation, begun);
    }
  }

  lemma {:induction false} OtherEventsSpareTurn(p: Post, rs: seq<LogRecord>, u: string, conversation: string,
                                                begun: int)
    requires IsUser(p.user) && p.user != u
    ensures AllSpareTurn(EventsOf(p, rs), u, conversation, begun)
    decreases |rs|
  {
    if rs != [] { OtherEventsSpareTurn(p, rs[..|rs| - 1], u, conversation, begun); }
  }

  predicate IsTurnStep(step: Step, u: string, conversation: string, name: string) {
    step.Event? && step.user == u && IsCodex(step.record.service) && EventName(step.record) == name &&
    step.record.attrs.conversationId == Some(conversation)
  }

  lemma TurnStepIsItsUsage(s: State, env: Env, step: Step, u: string, conversation: string, name: string)
    requires IsTurnStep(step, u, conversation, name)
    requires name == "codex.websocket_request" || name == "codex.sse_event"
    ensures After(s, env, step) ==
            if IsStateEvent(step.record) then CodexState(s, u, step.now, step.record)
            else CodexUsage(s, env, u, step.clientIp, step.record)
  {
    CodexUsageOnly(s, env, u, step.clientIp, step.now, step.record);
  }

  lemma CodexUsageOnly(s: State, env: Env, v: string, ip: Option<string>, now: int, r: LogRecord)
    requires IsCodex(r.service) && (EventName(r) == "codex.websocket_request" || EventName(r) == "codex.sse_event")
    ensures Handle(s, env, v, ip, now, r) == HandleUsage(s, env, v, ip, now, r)
  {
    OneKindOfEvent(s, env, v, ip, now, r);
    assert NotePrompt(s, v, now, r) == s;
  }

  lemma TurnBegins(s: State, env: Env, step: Step, u: string, conversation: string)
    requires IsTurnStep(step, u, conversation, "codex.websocket_request") && step.record.attrs.eventTimeMs.Some?
    requires conversation != "" && TurnAt(s, Scoped(u, conversation)).None?
    ensures TurnAt(After(s, env, step), Scoped(u, conversation)) ==
            Some(Turn(step.now, step.record.attrs.eventTimeMs, None, None))
  {
    TurnStepIsItsUsage(s, env, step, u, conversation, "codex.websocket_request");
  }

  lemma FirstTokenIsNoted(s: State, env: Env, step: Step, u: string, conversation: string, t: Turn)
    requires IsTurnStep(step, u, conversation, "codex.sse_event") && conversation != ""
    requires step.record.attrs.eventKind == Some("response.created") && step.record.attrs.durationMs.Some?
    requires TurnAt(s, Scoped(u, conversation)) == Some(t)
    ensures TurnAt(After(s, env, step), Scoped(u, conversation)) == Some(t.(ttftMs := step.record.attrs.durationMs))
  {
    TurnStepIsItsUsage(s, env, step, u, conversation, "codex.sse_event");
    assert step.record.attrs.eventKind != Some("codex.api_request");
  }

  /** Before its completion the turn knows its start and its first token, whatever came in between. */
  lemma TurnIsReady(s: State, env: Env, u: string, conversation: string, start: Step, first: seq<Step>,
                    created: Step, second: seq<Step>)
    requires IsUser(u) && conversation != "" && TurnAt(s, Scoped(u, conversation)).None?
    requires IsTurnStep(start, u, conversation, "codex.websocket_request") && start.record.attrs.eventTimeMs.Some?
    requires IsTurnStep(created, u, conversation, "codex.sse_event")
    requires created.record.attrs.eventKind == Some("response.created") && created.record.attrs.durationMs.Some?
    requires AllSpareTurn(first, u, conversation, start.now) && AllSpareTurn(second, u, conversation, start.now)
    ensures TurnAt(AfterAll(s, env, [start] + first + [created] + second), Scoped(u, conversation)) ==
            Some(Turn(start.now, start.record.attrs.eventTimeMs, None, created.record.attrs.durationMs))
  {
    var s1 := After(s, env, start);
    var s2 := AfterAll(s1, env, first);
    Chained(s, env, start, first, created, second);
    TurnBegins(s, env, start, u, conversation);
    TurnIsSpared(s1, env, first, u, conversation);
    FirstTokenIsNoted(s2, env, created, u, conversation, Turn(start.now, start.record.attrs.eventTimeMs, None, None));
    TurnIsSpared(After(s2, env, created), env, second, u, conversation);
  }

  lemma TurnIsCompleted(s: State, env: Env, u: string, conversation: string, done: Step, t: Turn)
    requires IsTurnStep(done, u, conversation, "codex.sse_event") && CompletesCodex(done.record) && conversation != ""
    requires done.record.attrs.ttftMs.None? && done.record.attrs.eventTimeMs.Some?
    requires TurnAt(s, Scoped(u, conversation)) == Some(t) && t.durationMs.None? && t.startMs.Some?
    requires done.record.attrs.eventTimeMs.value >= t.startMs.value
    ensures var after := After(s, env, done);
      |s.log| < |after.log| && after.log[|s.log|].UsageEntry? && after.log[|s.log|].user == u &&
      after.log[|s.log|].request.latencyMs == Some(done.record.attrs.eventTimeMs.value - t.startMs.value) &&
      after.log[|s.log|].request.ttftMs == t.ttftMs && TurnAt(after, Scoped(u, conversation)).None?
  {
    TurnStepIsItsUsage(s, env, done, u, conversation, "codex.sse_event");
    CompletedTurn(s, env, u, done.clientIp, done.record, t);
  }

  /** A turn that starts with a websocket request, reports its first token and completes is recorded with the time
      from start to completion as its latency and the reported first-token time, and is used up. The three events may
      arrive in different posts, with anything in between that is not about this turn: other users, other
      conversations, the tools of this one, and sweeps within ten minutes of the start. */
  lemma CodexLatencyIsMeasured(s: State, env: Env, u: string, conversation: string, start: Step, first: seq<Step>,
                               created: Step, second: seq<Step>, done: Step)
    requires IsUser(u) && conversation != "" && TurnAt(s, Scoped(u, conversation)).None?
    requires IsTurnStep(start, u, conversation, "codex.websocket_request") && start.record.attrs.eventTimeMs.Some?
    requires IsTurnStep(created, u, conversation, "codex.sse_event")
    requires created.record.attrs.eventKind == Some("response.created") && created.record.attrs.durationMs.Some?
    requires IsTurnStep(done, u, conversation, "codex.sse_event") && CompletesCodex(done.record)
    requires done.record.attrs.ttftMs.None? && done.record.attrs.eventTimeMs.Some?
    requires done.record.attrs.eventTimeMs.value >= start.record.attrs.eventTimeMs.value
    requires AllSpareTurn(first, u, conversation, start.now) && AllSpareTurn(second, u, conversation, start.now)
    ensures var before := AfterAll(s, env, [start] + first + [created] + second);
      var after := After(before, env, done);
      |before.log| < |after.log| && after.log[|before.log|].UsageEntry? && after.log[|before.log|].user == u &&
      after.log[|before.log|].request.latencyMs ==
        Some(done.record.attrs.eventTimeMs.value - start.record.attrs.eventTimeMs.value) &&
      after.log[|before.log|].request.ttftMs == created.record.attrs.durationMs &&
      TurnAt(after, Scoped(u, conversation)).None?
  {
    var t := Turn(start.now, start.record.attrs.eventTimeMs, None, created.record.attrs.durationMs);
    TurnIsReady(s, env, u, conversation, start, first, created, second);
    TurnIsCompleted(AfterAll(s, env, [start] + first + [created] + second), env, u, conversation, done, t);
  }

  lemma CompletedTurn(s: State, env: Env, u: string, ip: Option<string>, done: LogRecord, t: Turn)
    requires CompletesCodex(done) && done.attrs.ttftMs.None? && Present(done.attrs.conversationId)
    requires TurnAt(s, Scoped(u, done.attrs.conversationId.value)) == Some(t) && t.durationMs.None? && t.startMs.Some?
    requires done.attrs.eventTimeMs.Some? && done.attrs.eventTimeMs.value >= t.startMs.value
    ensures var after := CodexUsage(s, env, u, ip, done);
      |s.log| < |after.log| && after.log[|s.log|].UsageEntry? && after.log[|s.log|].user == u &&
      after.log[|s.log|].request.latencyMs == Some(done.attrs.eventTimeMs.value - t.startMs.value) &&
      after.log[|s.log|].request.ttftMs == t.ttftMs && TurnAt(after, Scoped(u, done.attrs.conversationId.value)).None?
  {
    var q := CodexRequest(env, u, ip, done, Some(t), PromptLengthFor(s, u, done, ""));
    var consumed := ConsumePrompt(s, u, done, "");
    assert consumed.log == s.log;
    RecordedFirst(consumed, u, q, RowOf(env, s.log, u, q), done.attrs.conversationId);
  }

  lemma RecordedFirst(s: State, u: string, q: Request, ref: Option<UsageRef>, conversation: Option<string>)
    requires Present(conversation)
    ensures var s' := CodexRecorded(s, u, q, ref, conversation);
      |s.log| < |s'.log| && s'.log[|s.log|] == UsageEntry(u, q, ref) && TurnAt(s', Scoped(u, conversation.value)).None?
  {
  }

  // ---------------------------------------------------------------- prompt lengths

  function ValuesAt(s: State, key: string): seq<int> { if key in s.prompts then s.prompts[key].values else [] }

  /** No queue is kept empty. */
  predicate NoEmptyQueue(s: State) { forall k :: k in s.prompts ==> s.prompts[k].values != [] }

  /** The key under which a usage event looks for its prompt length. */
  function DrawKey(r: LogRecord): Option<string> { PromptKey(r, DrawSession(r)) }

  /** A usage event without a prompt length of its own, looking under this key. */
  predicate Draws(step: Step, key: string) {
    step.Event? && IsDrawing(step.record) && step.record.attrs.promptLength.None? &&
    DrawKey(step.record).Some? && Scoped(step.user, DrawKey(step.record).value) == key
  }

  predicate IsDrawing(r: LogRecord) {
    IsClaudeRequest(r) ||
    (EventName(r) == "codex.sse_event" && IsCodex(r.service) && !IsStateEvent(r) && CompletesCodex(r))
  }

  /** The length a step queues under the key, if it is a prompt event. */
  function QueuedBy(step: Step, key: string): seq<int> {
    if step.Sweep? || IsRetired(step.record.service) || !IsPromptEvent(EventName(step.record)) then []
    else
      var own, length := PromptKey(step.record, OrEmpty(SessionOf(step.record))), step.record.attrs.promptLength;
      if length.Some? && own.Some? && Scoped(step.user, own.value) == key then [length.value] else []
  }

  /** The prompt length of the request recorded at this place of the log. */
  function LengthAt(log: Log, n: nat): int {
    if n < |log| && log[n].UsageEntry? then OrZero(log[n].request.promptLength) else 0
  }

  /** The length a usage event takes from the queue, as the request it records shows it. */
  function HandedBy(s: State, s': State, step: Step, key: string): seq<int> {
    if Draws(step, key) && ValuesAt(s, key) != [] then [LengthAt(s'.log, |s.log|)] else []
  }

  function Queuings(steps: seq<Step>, key: string): seq<int> {
    if steps == [] then [] else Queuings(steps[..|steps| - 1], key) + QueuedBy(steps[|steps| - 1], key)
  }

  function HandedOut(s: State, env: Env, steps: seq<Step>, key: string): seq<int> {
    if steps == [] then []
    else
      HandedOut(s, env, steps[..|steps| - 1], key) +
      HandedBy(AfterAll(s, env, steps[..|steps| - 1]), AfterAll(s, env, steps), steps[|steps| - 1], key)
  }

  /** No sweep finds the queue stale. */
  predicate KeepsQueue(s: State, env: Env, steps: seq<Step>, key: string) {
    forall n :: 0 <= n < |steps| && steps[n].Sweep? ==> IsFreshQueue(AfterAll(s, env, steps[..n]), key, steps[n].now)
  }

  predicate IsFreshQueue(s: State, key: string, now: int) {
    key in s.prompts ==> now - s.prompts[key].ts <= STALE_MICROS
  }

  lemma ClaudeUsageDraws(s: State, env: Env, v: string, ip: Option<string>, r: LogRecord)
    ensures var s' := ClaudeUsage(s, env, v, ip, r); var session := OrEmpty(SessionOf(r));
      s'.prompts == ConsumePrompt(s, v, r, session).prompts &&
      |s.log| < |s'.log| && LengthAt(s'.log, |s.log|) == PromptLengthFor(s, v, r, session)
  {
    PromptsSpare(s, v, 0, r, OrEmpty(SessionOf(r)));
  }

  lemma CodexUsageDraws(s: State, env: Env, v: string, ip: Option<string>, r: LogRecord)
    requires CompletesCodex(r)
    ensures var s' := CodexUsage(s, env, v, ip, r);
      s'.prompts == ConsumePrompt(s, v, r, "").prompts &&
      |s.log| < |s'.log| && LengthAt(s'.log, |s.log|) == PromptLengthFor(s, v, r, "")
  {
    PromptsSpare(s, v, 0, r, "");
  }

  lemma OtherUsageKeepsQueues(s: State, env: Env, v: string, ip: Option<string>, now: int, r: LogRecord)
    requires !IsDrawing(r)
    ensures HandleUsage(s, env, v, ip, now, r).prompts == s.prompts
  {
    CodexStateSpares(s, v, now, r);
    if IsMessageService(r.service) && EventName(r) == r.service + ".message_completed" {
      MessageUsageSpares(s, env, v, ip, r);
    }
  }

  /** What a usage event does to the queues, and the length its request gets. */
  lemma UsageDraws(s: State, env: Env, v: string, ip: Option<string>, now: int, r: LogRecord)
    ensures var s' := HandleUsage(s, env, v, ip, now, r);
      if IsDrawing(r) then
        s'.prompts == ConsumePrompt(s, v, r, DrawSession(r)).prompts &&
        LengthAt(s'.log, |s.log|) == PromptLengthFor(s, v, r, DrawSession(r))
      else s'.prompts == s.prompts
  {
    if IsClaudeRequest(r) {
      ClaudeUsageDraws(s, env, v, ip, r);
    } else if IsDrawing(r) {
      CodexUsageDraws(s, env, v, ip, r);
    } else {
      OtherUsageKeepsQueues(s, env, v, ip, now, r);
    }
  }

  function FirstOrZero(values: seq<int>): int { if values == [] then 0 else values[0] }

  lemma NotingQueues(s: State, ip: Option<string>, v: string, now: int, r: LogRecord, key: string)
    requires NoEmptyQueue(s) && !IsRetired(r.service)
    ensures var s' := NotePrompt(s, v, now, r);
      NoEmptyQueue(s') && s'.log == s.log && ValuesAt(s', key) == ValuesAt(s, key) + QueuedBy(Event(v, ip, now, r), key)
  {
  }

  lemma ConsumingDraws(s: State, v: string, r: LogRecord, session: string, key: string)
    requires NoEmptyQueue(s)
    ensures var s', own := ConsumePrompt(s, v, r, session), PromptKey(r, session);
      NoEmptyQueue(s') &&
      if r.attrs.promptLength.None? && own.Some? && Scoped(v, own.value) == key then
        PromptLengthFor(s, v, r, session) == FirstOrZero(ValuesAt(s, key)) &&
        (ValuesAt(s, key) == [] ==> ValuesAt(s', key) == []) &&
        (ValuesAt(s, key) != [] ==> [FirstOrZero(ValuesAt(s, key))] + ValuesAt(s', key) == ValuesAt(s, key))
      else ValuesAt(s', key) == ValuesAt(s, key)
  {
  }

  lemma SweepKeepsQueue(s: State, now: int, key: string)
    requires NoEmptyQueue(s) && IsFreshQueue(s, key, now)
    ensures NoEmptyQueue(Evict(s, now)) && ValuesAt(Evict(s, now), key) == ValuesAt(s, key)
  {
  }

  lemma DrawingIsUsage(s: State, env: Env, v: string, ip: Option<string>, now: int, r: LogRecord)
    requires IsDrawing(r)
    ensures Handle(s, env, v, ip, now, r) == HandleUsage(s, env, v, ip, now, r) && !IsPromptEvent(EventName(r))
  {
    OneKindOfEvent(s, env, v, ip, now, r);
  }

  function DrawSession(r: LogRecord): string { if IsClaudeRequest(r) then OrEmpty(SessionOf(r)) else "" }

  /** The queue and the log after a usage event has consumed its length. */
  lemma DrawingMovesQueue(s: State, s': State, v: string, ip: Option<string>, now: int, r: LogRecord, key: string)
    requires NoEmptyQueue(s) && IsDrawing(r) && !IsPromptEvent(EventName(r))
    requires s'.prompts == ConsumePrompt(s, v, r, DrawSession(r)).prompts
    requires LengthAt(s'.log, |s.log|) == PromptLengthFor(s, v, r, DrawSession(r))
    ensures var step := Event(v, ip, now, r);
      NoEmptyQueue(s') && HandedBy(s, s', step, key) + ValuesAt(s', key) == ValuesAt(s, key) &&
      QueuedBy(step, key) == [] && (Draws(step, key) ==> LengthAt(s'.log, |s.log|) == FirstOrZero(ValuesAt(s, key)))
  {
    ConsumingDraws(s, v, r, DrawSession(r), key);
    SamePrompts(ConsumePrompt(s, v, r, DrawSession(r)), s', key);
  }

  lemma SamePrompts(s: State, s': State, key: string)
    requires s'.prompts == s.prompts
    ensures ValuesAt(s', key) == ValuesAt(s, key) && (NoEmptyQueue(s) ==> NoEmptyQueue(s'))
  {
  }

  lemma OtherMovesQueue(s: State, env: Env, v: string, ip: Option<string>, now: int, r: LogRecord, key: string)
    requires NoEmptyQueue(s) && !IsDrawing(r)
    ensures var s', step := Handle(s, env, v, ip, now, r), Event(v, ip, now, r);
      NoEmptyQueue(s') && ValuesAt(s', key) == ValuesAt(s, key) + QueuedBy(step, key)
  {
    if !IsRetired(r.service) {
      var noted := NotePrompt(s, v, now, r);
      NotingQueues(s, ip, v, now, r, key);
      ToolSparesRest(noted, v, r);
      UsageDraws(HandleTool(noted, v, r), env, v, ip, now, r);
    }
  }

  /** One step adds what it queues at the end and takes what it hands out from the front; the request a drawing usage
      event records has the length that was first in line, or zero if none was. */
  lemma StepMovesQueue(s: State, env: Env, step: Step, key: string)
    requires NoEmptyQueue(s) && (step.Sweep? ==> IsFreshQueue(s, key, step.now))
    ensures NoEmptyQueue(After(s, env, step))
    ensures HandedBy(s, After(s, env, step), step, key) + ValuesAt(After(s, env, step), key) ==
            ValuesAt(s, key) + QueuedBy(step, key)
    ensures Draws(step, key) ==> LengthAt(After(s, env, step).log, |s.log|) == FirstOrZero(ValuesAt(s, key))
  {
    match step
    case Sweep(now) =>
      SweepKeepsQueue(s, now, key);
    case Event(v, ip, now, r) =>
      if IsDrawing(r) {
        DrawingIsUsage(s, env, v, ip, now, r);
        UsageDraws(s, env, v, ip, now, r);
        DrawingMovesQueue(s, Handle(s, env, v, ip, now, r), v, ip, now, r, key);
      } else {
        OtherMovesQueue(s, env, v, ip, now, r, key);
      }
  }

  /** Prompt lengths wait in line: over any steps of which no sweep finds the queue stale, the lengths the usage events
      received, followed by those still waiting, are the ones that waited at first followed by the ones queued since.
      So each is handed out once, oldest first. */
  lemma {:induction false} LengthsAreDrawnInOrder(s: State, env: Env, steps: seq<Step>, key: string)
    requires NoEmptyQueue(s) && KeepsQueue(s, env, steps, key)
    ensures NoEmptyQueue(AfterAll(s, env, steps))
    ensures HandedOut(s, env, steps, key) + ValuesAt(AfterAll(s, env, steps), key) ==
            ValuesAt(s, key) + Queuings(steps, key)
    decreases |steps|
  {
    if steps != [] {
      var rest, step := steps[..|steps| - 1], steps[|steps| - 1];
      var before := AfterAll(s, env, rest);
      forall n | 0 <= n < |rest| && rest[n].Sweep?
        ensures IsFreshQueue(AfterAll(s, env, rest[..n]), key, rest[n].now)
      {
        assert rest[..n] == steps[..n];
      }
      LengthsAreDrawnInOrder(s, env, rest, key);
      StepMovesQueue(before, env, step, key);
      OneMoreInLine(HandedOut(s, env, rest, key), HandedBy(before, After(before, env, step), step, key),
        ValuesAt(After(before, env, step), key), ValuesAt(before, key), QueuedBy(step, key), ValuesAt(s, key),
        Queuings(rest, key));
    }
  }

  lemma OneMoreInLine<T>(out: seq<T>, handed: seq<T>, now: seq<T>, was: seq<T>, added: seq<T>, first: seq<T>,
                         queued: seq<T>)
    requires out + was == first + queued && handed + now == was + added
    ensures (out + handed) + now == first + (queued + added)
  {
    assert (out + handed) + now == out + (handed + now);
    assert out + (was + added) == (out + was) + added;
  }

  /** A prompt's length reaches the request that answers it: the next usage event of the same client and thread that has
      no length of its own records it, if no other length waited and none was asked for or taken in between. */
  lemma PromptLengthReachesItsRequest(s: State, env: Env, u: string, asked: Step, between: seq<Step>, answered: Step)
    requires asked.Event? && answered.Event? && asked.user == answered.user == u
    requires asked.record.attrs.eventName in {Some("user_prompt"), Some("codex.user_prompt")}
    requires asked.record.service != "gemini-cli" && asked.record.attrs.promptLength.Some?
    requires IsClaudeRequest(answered.record) || IsCodexCompletion(answered.record)
    requires answered.record.attrs.promptLength.None? && answered.record.service == asked.record.service
    requires ThreadOf(asked.record) == ThreadOf(answered.record) != Nothing
    requires var key := u + ":" + ThreadKey(asked.record.service, ThreadOf(asked.record)).value;
      NoEmptyQueue(s) && ValuesAt(s, key) == [] && KeepsQueue(After(s, env, asked), env, between, key) &&
      Queuings(between, key) == [] && HandedOut(After(s, env, asked), env, between, key) == []
    ensures var before := AfterAll(After(s, env, asked), env, between);
      LengthAt(After(before, env, answered).log, |before.log|) == asked.record.attrs.promptLength.value
  {
    var key := Scoped(u, ThreadKey(asked.record.service, ThreadOf(asked.record)).value);
    var length, s1 := asked.record.attrs.promptLength.value, After(s, env, asked);
    PromptIsQueued(asked, key);
    LengthWaits(s, env, asked, key, length);
    LengthsAreDrawnInOrder(s1, env, between, key);
    OneWaits([], ValuesAt(AfterAll(s1, env, between), key), [length]);
    AnswerDraws(answered, key);
    StepMovesQueue(AfterAll(s1, env, between), env, answered, key);
  }

  lemma LengthWaits(s: State, env: Env, asked: Step, key: string, length: int)
    requires NoEmptyQueue(s) && ValuesAt(s, key) == [] && asked.Event?
    requires QueuedBy(asked, key) == [length] && !Draws(asked, key)
    ensures NoEmptyQueue(After(s, env, asked)) && ValuesAt(After(s, env, asked), key) == [length]
  {
    StepMovesQueue(s, env, asked, key);
    OneWaits(HandedBy(s, After(s, env, asked), asked, key), ValuesAt(After(s, env, asked), key), [length]);
  }

  lemma OneWaits(handed: seq<int>, now: seq<int>, queued: seq<int>)
    requires handed == [] && (handed + now == [] + queued || handed + now == queued + [])
    ensures now == queued
  {
    assert handed + now == now && [] + queued == queued && queued + [] == queued;
  }

  lemma PromptIsQueued(asked: Step, key: string)
    requires asked.Event? && asked.record.attrs.eventName in {Some("user_prompt"), Some("codex.user_prompt")}
    requires asked.record.service != "gemini-cli" && asked.record.attrs.promptLength.Some?
    requires ThreadOf(asked.record) != Nothing
    requires key == asked.user + ":" + ThreadKey(asked.record.service, ThreadOf(asked.record)).value
    ensures QueuedBy(asked, key) == [asked.record.attrs.promptLength.value] && !Draws(asked, key)
  {
    KeysAreThreads(asked.record);
  }

  lemma AnswerDraws(answered: Step, key: string)
    requires answered.Event? && (IsClaudeRequest(answered.record) || IsCodexCompletion(answered.record))
    requires answered.record.attrs.promptLength.None? && ThreadOf(answered.record) != Nothing
    requires key == answered.user + ":" + ThreadKey(answered.record.service, ThreadOf(answered.record)).value
    ensures Draws(answered, key)
  {
    KeysAreThreads(answered.record);
    if !IsClaudeRequest(answered.record) { assert !IsStateEvent(answered.record); }
  }
}
