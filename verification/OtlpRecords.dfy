/** What the receiver records, in terms of what the clients sent: which events yield a usage row, what the row says and
    is charged, and what becomes of the tool calls that wait for it. */
module OtlpRecords {
  import opened Basics
  import opened Rates
  import opened Requests
  import opened Correlation
  import opened Otlp
  import opened OtlpFates

  // ---------------------------------------------------------------- the events, as clients name them

  predicate IsClaudeCode(r: LogRecord) { r.service == "claude-code" }

  predicate IsClaudeRequest(r: LogRecord) {
    IsClaudeCode(r) && r.attrs.eventName in {Some("claude_code.api_request"), Some("api_request")}
  }

  predicate IsCodexClient(r: LogRecord) { r.service in {"codex_cli_rs", "codex_exec", "codex-app-server"} }

  /** The completion that carries token counts; there is another one that does not. */
  predicate IsCodexCompletion(r: LogRecord) {
    IsCodexClient(r) && r.attrs.eventName == Some("codex.sse_event") &&
    r.attrs.eventKind == Some("response.completed") && r.attrs.input.Some?
  }

  predicate IsMessageCompletion(r: LogRecord) {
    (r.service == "opencode" && r.attrs.eventName == Some("opencode.message_completed")) ||
    (r.service == "kilo" && r.attrs.eventName == Some("kilo.message_completed"))
  }

  predicate YieldsUsage(r: LogRecord) { IsClaudeRequest(r) || IsCodexCompletion(r) || IsMessageCompletion(r) }

  // ---------------------------------------------------------------- what the requests say

  function N(o: Option<int>): int { if o.Some? then o.value else 0 }

  function TextOr(o: Option<string>, fallback: string): string {
    if o.Some? && o.value != "" then o.value else fallback
  }

  /** The session of a client that names it in the event or, failing that, in its resource. */
  function NamedSession(r: LogRecord): Option<string> {
    if r.attrs.sessionId.Some? && r.attrs.sessionId.value != "" then r.attrs.sessionId
    else if r.resourceSession != "" then Some(r.resourceSession)
    else None
  }

  predicate IsReportedBy(q: Request, u: string, ip: Option<string>, client: string, session: Option<string>) {
    q.userId == Some(u) && q.clientIp == ip && q.endpoint == "otlp" && q.clientSource == Some(client) &&
    q.sessionId == session
  }

  /** Claude counts cache reads beside its input; the row's prompt includes them. */
  predicate SaysClaude(q: Request, env: Env, u: string, ip: Option<string>, r: LogRecord) {
    var a := r.attrs;
    IsReportedBy(q, u, ip, "claude-code", NamedSession(r)) && q.ts == N(r.timeNs) / 1000 &&
    q.provider == env.provider("claude", None) && q.model == TextOr(a.model, "claude-unknown") &&
    q.tokens.prompt == Some(N(a.input) + N(a.cached)) && q.tokens.completion == a.output &&
    q.tokens.cached == a.cached && q.tokens.cacheCreation == a.cacheCreation &&
    q.totalTokens == Some(N(a.input) + N(a.cached) + N(a.output) + N(a.cacheCreation)) &&
    q.reasoningTokens == None && q.toolTokens == None && q.latencyMs == a.durationMs && q.ttftMs == None &&
    q.status == a.status && (a.promptLength != None ==> q.promptLength == a.promptLength)
  }

  /** Codex counts cache reads within its input, and reports no cache writes. */
  predicate SaysCodex(q: Request, env: Env, u: string, ip: Option<string>, r: LogRecord) {
    var a := r.attrs;
    IsReportedBy(q, u, ip, "codex", a.conversationId) &&
    q.ts == (if a.eventTimeMs.Some? then a.eventTimeMs.value * 1000
             else if N(r.timeNs) != 0 then N(r.timeNs) / 1000 else N(r.observedNs) / 1000) &&
    q.provider == env.provider("codex", None) && q.model == TextOr(a.model, "codex-unknown") &&
    q.tokens.prompt == Some(N(a.input)) && q.tokens.completion == Some(N(a.output)) && q.tokens.cached == a.cached &&
    q.tokens.cacheCreation == None && q.totalTokens == Some(N(a.input) + N(a.output)) &&
    q.reasoningTokens == a.reasoning && q.toolTokens == a.toolTokens && q.status == a.status &&
    (a.promptLength != None ==> q.promptLength == a.promptLength)
  }

  /** How long a completed turn took: what its request reported, else the time since its start, else what the event
      itself says; and its first-token time. */
  predicate SaysTurn(q: Request, t: Option<Turn>, a: Attributes) {
    (t.None? ==> q.latencyMs == a.durationMs && q.ttftMs == a.ttftMs) &&
    (t.Some? && t.value.durationMs.Some? ==> q.latencyMs == t.value.durationMs) &&
    (t.Some? && t.value.durationMs.None? && t.value.startMs.Some? && a.eventTimeMs.Some? &&
     t.value.startMs.value <= a.eventTimeMs.value ==>
       q.latencyMs == Some(a.eventTimeMs.value - t.value.startMs.value)) &&
    (t.Some? && t.value.durationMs.None? &&
     (t.value.startMs.None? || a.eventTimeMs.None? || a.eventTimeMs.value < t.value.startMs.value) ==>
       q.latencyMs == a.durationMs) &&
    (t.Some? && a.ttftMs.None? ==> q.ttftMs == t.value.ttftMs) && (a.ttftMs.Some? ==> q.ttftMs == a.ttftMs)
  }

  /** OpenCode and Kilo count cache reads beside their input and reasoning beside their output; the row's prompt and
      completion include them. */
  predicate SaysMessage(q: Request, env: Env, u: string, ip: Option<string>, r: LogRecord) {
    var a := r.attrs;
    IsReportedBy(q, u, ip, r.service, NamedSession(r)) && q.ts == N(r.timeNs) / 1000 &&
    q.provider == TextOr(a.provider, env.provider(r.service, a.provider)) &&
    q.model == TextOr(a.model, r.service + "-unknown") &&
    q.tokens.prompt == Some(N(a.input) + N(a.cached)) &&
    q.tokens.completion == (if a.output.Some? then Some(a.output.value + N(a.reasoning)) else None) &&
    q.tokens.cached == a.cached && q.tokens.cacheCreation == a.cacheCreation &&
    q.totalTokens == Some(N(a.input) + N(a.cached) + N(q.tokens.completion) + N(a.cacheCreation)) &&
    q.reasoningTokens == a.reasoning && q.toolTokens == None && q.promptLength == Some(N(a.promptLength)) &&
    q.latencyMs == a.durationMs && q.ttftMs == a.ttftMs && q.status == a.status
  }

  /** The first entry a step adds to the log is a usage entry of the user; recording turned it down exactly if it was a
      success without tokens. */
  predicate AddsUsage(s: State, s': State, u: string) {
    |s.log| < |s'.log| && s'.log[..|s.log|] == s.log && s'.log[|s.log|].UsageEntry? && s'.log[|s.log|].user == u &&
    (s'.log[|s.log|].ref.None? <==> Skipped(s'.log[|s.log|].request))
  }

  /** The request of that entry. */
  function Added(s: State, s': State): Request
    requires |s.log| < |s'.log| && s'.log[|s.log|].UsageEntry?
  {
    s'.log[|s.log|].request
  }

  lemma UsageOnly(s: State, env: Env, u: string, ip: Option<string>, now: int, r: LogRecord)
    requires IsUsageEvent(r) && !IsPromptEvent(EventName(r))
    ensures Handle(s, env, u, ip, now, r) == HandleUsage(s, env, u, ip, now, r)
  {
    OneKindOfEvent(s, env, u, ip, now, r);
    assert NotePrompt(s, u, now, r) == s;
  }

  lemma SessionsAgree(r: LogRecord)
    ensures !IsCodexClient(r) ==> SessionOf(r) == NamedSession(r)
  {
  }

  lemma ClaudeRecordedAdds(s: State, u: string, q: Request, ref: Option<UsageRef>, prompt: Option<string>)
    ensures var s' := ClaudeRecorded(s, u, q, ref, prompt);
      |s.log| < |s'.log| && s'.log[..|s.log|] == s.log && s'.log[|s.log|] == UsageEntry(u, q, ref)
  {
  }

  lemma SettledAdds(s: State, u: string, kind: Kind, key: string, ref: Option<UsageRef>, source: string)
    ensures s.log <= Settled(s, u, kind, key, ref, source).log
  {
  }

  lemma ClaudeHandled(s: State, env: Env, u: string, ip: Option<string>, now: int, r: LogRecord)
    requires IsClaudeRequest(r)
    ensures Handle(s, env, u, ip, now, r) == ClaudeUsage(s, env, u, ip, r)
  {
    UsageOnly(s, env, u, ip, now, r);
  }

  lemma CodexHandled(s: State, env: Env, u: string, ip: Option<string>, now: int, r: LogRecord)
    requires IsCodexCompletion(r)
    ensures Handle(s, env, u, ip, now, r) == CodexUsage(s, env, u, ip, r)
  {
    assert !IsStateEvent(r);
    UsageOnly(s, env, u, ip, now, r);
  }

  lemma MessageEventName(r: LogRecord)
    requires IsMessageCompletion(r)
    ensures IsMessageService(r.service) && EventName(r) == r.service + ".message_completed"
    ensures IsUsageEvent(r) && !IsPromptEvent(EventName(r)) && !IsCodex(r.service) && r.service != "claude-code"
  {
    assert "opencode" + ".message_completed" == "opencode.message_completed";
    assert "kilo" + ".message_completed" == "kilo.message_completed";
  }

  lemma MessageHandled(s: State, env: Env, u: string, ip: Option<string>, now: int, r: LogRecord)
    requires IsMessageCompletion(r)
    ensures Handle(s, env, u, ip, now, r) == MessageUsage(s, env, u, ip, r)
  {
    MessageEventName(r);
    UsageOnly(s, env, u, ip, now, r);
  }

  lemma ClaudeRequestSays(s: State, env: Env, u: string, ip: Option<string>, r: LogRecord)
    requires IsClaudeRequest(r)
    ensures SaysClaude(ClaudeRequest(env, u, ip, r, PromptLengthFor(s, u, r, OrEmpty(SessionOf(r)))), env, u, ip, r)
  {
    SessionsAgree(r);
  }

  /** A Claude request is recorded as it was sent. */
  lemma ClaudeRequestIsRecorded(s: State, env: Env, u: string, ip: Option<string>, now: int, r: LogRecord)
    requires IsClaudeRequest(r)
    ensures var s' := Handle(s, env, u, ip, now, r);
      AddsUsage(s, s', u) && SaysClaude(Added(s, s'), env, u, ip, r)
  {
    var session := OrEmpty(SessionOf(r));
    var q := ClaudeRequest(env, u, ip, r, PromptLengthFor(s, u, r, session));
    var consumed := ConsumePrompt(s, u, r, session);
    ClaudeHandled(s, env, u, ip, now, r);
    ClaudeRequestSays(s, env, u, ip, r);
    ClaudeRecordedAdds(consumed, u, q, RowOf(env, s.log, u, q), r.attrs.promptDotId);
  }

  /** A Codex completion is recorded as it was sent, with what is known of its turn. */
  lemma CodexCompletionIsRecorded(s: State, env: Env, u: string, ip: Option<string>, now: int, r: LogRecord)
    requires IsCodexCompletion(r)
    ensures var s' := Handle(s, env, u, ip, now, r);
      AddsUsage(s, s', u) && SaysCodex(Added(s, s'), env, u, ip, r) &&
      SaysTurn(Added(s, s'), if Present(r.attrs.conversationId)
                             then TurnAt(s, u + ":" + r.attrs.conversationId.value) else None, r.attrs)
  {
    var t := if Present(r.attrs.conversationId) then TurnAt(s, Scoped(u, r.attrs.conversationId.value)) else None;
    var q := CodexRequest(env, u, ip, r, t, PromptLengthFor(s, u, r, ""));
    CodexHandled(s, env, u, ip, now, r);
    CodexRequestSays(s, env, u, ip, r, t);
    CodexRecordedAdds(ConsumePrompt(s, u, r, ""), u, q, RowOf(env, s.log, u, q), r.attrs.conversationId);
  }

  lemma CodexRequestSays(s: State, env: Env, u: string, ip: Option<string>, r: LogRecord, t: Option<Turn>)
    ensures var q := CodexRequest(env, u, ip, r, t, PromptLengthFor(s, u, r, ""));
      SaysCodex(q, env, u, ip, r) && SaysTurn(q, t, r.attrs)
  {
  }

  lemma CodexRecordedAdds(s: State, u: string, q: Request, ref: Option<UsageRef>, conversation: Option<string>)
    ensures var s' := CodexRecorded(s, u, q, ref, conversation);
      |s.log| < |s'.log| && s'.log[..|s.log|] == s.log && s'.log[|s.log|] == UsageEntry(u, q, ref)
  {
    var said := Say(s, UsageEntry(u, q, ref));
    if Present(conversation) {
      var key := Scoped(u, conversation.value);
      SettledAdds(TurnEnded(said, key), u, CodexTools, key, ref, "codex");
    }
  }

  /** An OpenCode or Kilo message is recorded as it was sent. */
  lemma MessageIsRecorded(s: State, env: Env, u: string, ip: Option<string>, now: int, r: LogRecord)
    requires IsMessageCompletion(r)
    ensures var s' := Handle(s, env, u, ip, now, r);
      AddsUsage(s, s', u) && SaysMessage(Added(s, s'), env, u, ip, r)
  {
    var q := MessageRequest(env, u, ip, r);
    var said := Say(s, UsageEntry(u, q, RowOf(env, s.log, u, q)));
    MessageHandled(s, env, u, ip, now, r);
    SessionsAgree(r);
    if Present(r.attrs.messageId) {
      SettledAdds(said, u, MessageTools, Scoped(u, r.attrs.messageId.value), RowOf(env, s.log, u, q), r.service);
    }
  }

  // ---------------------------------------------------------------- what they are charged

  predicate CountsNotNegative(a: Attributes) { N(a.input) >= 0 && N(a.cached) >= 0 && N(a.cacheCreation) >= 0 }

  /** A Claude request pays for its input, cache reads and cache writes side by side, each at its own price. */
  lemma ClaudeIsCharged(q: Request, env: Env, u: string, ip: Option<string>, r: LogRecord, rates: ModelCost, p: Prices)
    requires SaysClaude(q, env, u, ip, r) && CountsNotNegative(r.attrs) && OrderedTiers(rates.tiers)
    requires PricesFor(rates, N(r.attrs.input) + N(r.attrs.cached) + N(r.attrs.cacheCreation), p)
    ensures CalculateCosts(q.tokens, rates) ==
            ChargeOf(N(r.attrs.input), N(r.attrs.cached), N(r.attrs.cacheCreation), N(r.attrs.output), p)
  {
    RequestIsChargedAtItsPrices(q.tokens, rates, p);
  }

  /** A Codex turn pays for its input without the cache reads, which are charged at their own price. */
  lemma CodexIsCharged(q: Request, env: Env, u: string, ip: Option<string>, r: LogRecord, rates: ModelCost, p: Prices)
    requires SaysCodex(q, env, u, ip, r) && OrderedTiers(rates.tiers)
    requires PricesFor(rates, Max(N(r.attrs.input), N(r.attrs.cached)), p)
    ensures CalculateCosts(q.tokens, rates) ==
            ChargeOf(Max(N(r.attrs.input) - N(r.attrs.cached), 0), N(r.attrs.cached), 0, N(r.attrs.output), p)
  {
    RequestIsChargedAtItsPrices(q.tokens, rates, p);
  }

  /** A message of OpenCode or Kilo pays as a Claude request does, and for its reasoning as output. */
  lemma MessageIsCharged(q: Request, env: Env, u: string, ip: Option<string>, r: LogRecord, rates: ModelCost, p: Prices)
    requires SaysMessage(q, env, u, ip, r) && CountsNotNegative(r.attrs) && OrderedTiers(rates.tiers)
    requires PricesFor(rates, N(r.attrs.input) + N(r.attrs.cached) + N(r.attrs.cacheCreation), p)
    ensures CalculateCosts(q.tokens, rates) ==
            ChargeOf(N(r.attrs.input), N(r.attrs.cached), N(r.attrs.cacheCreation),
                     if r.attrs.output.Some? then r.attrs.output.value + N(r.attrs.reasoning) else 0, p)
  {
    RequestIsChargedAtItsPrices(q.tokens, rates, p);
  }

  // ---------------------------------------------------------------- and nothing else

  predicate NoUsageFrom(log: Log, n: nat) { forall k :: n <= k < |log| ==> !log[k].UsageEntry? }

  lemma CodexStateAddsNothing(s: State, u: string, now: int, r: LogRecord)
    ensures CodexState(s, u, now, r).log == s.log
  {
  }

  /** No other event yields a usage row. */
  lemma OnlyTheseYieldUsage(s: State, env: Env, u: string, ip: Option<string>, now: int, r: LogRecord)
    requires !YieldsUsage(r)
    ensures NoUsageFrom(Handle(s, env, u, ip, now, r).log, |s.log|)
  {
    if !IsRetired(r.service) {
      var noted := NotePrompt(s, u, now, r);
      var tooled := HandleTool(noted, u, r);
      ToolSaysNoUsage(noted, u, r);
      OthersRecordNoUsage(tooled, env, u, ip, now, r);
      forall k | |s.log| <= k < |tooled.log| ensures !tooled.log[k].UsageEntry? {
        assert Plain(tooled.log[|s.log|..][k - |s.log|], u);
      }
    }
  }

  lemma OthersRecordNoUsage(s: State, env: Env, u: string, ip: Option<string>, now: int, r: LogRecord)
    requires !YieldsUsage(r)
    ensures HandleUsage(s, env, u, ip, now, r).log == s.log
  {
    CodexStateAddsNothing(s, u, now, r);
    MessageNames(r);
    if EventName(r) == "codex.sse_event" && IsCodex(r.service) && !IsStateEvent(r) {
      assert !CompletesCodex(r) && CodexUsage(s, env, u, ip, r) == s;
    }
  }

  lemma MessageNames(r: LogRecord)
    ensures IsMessageService(r.service) && EventName(r) == r.service + ".message_completed" ==> IsMessageCompletion(r)
  {
    assert "opencode" + ".message_completed" == "opencode.message_completed";
    assert "kilo" + ".message_completed" == "kilo.message_completed";
  }

  // ---------------------------------------------------------------- the tools that wait for a request

  /** A recorded tool call says what its decision said, and belongs to the usage row and its session. */
  predicate IsRecordOf(e: Entry, u: string, w: Waiting, ref: UsageRef, client: string, slot: Slot) {
    e == CallEntry(u, ToolCall(u + ":" + w.id, Some(ref.id), ref.sessionId, w.name, w.durationMs, u, client, w.ts),
                   slot)
  }

  lemma {:induction false} CallsAreRecords(u: string, ws: seq<Waiting>, ref: UsageRef, client: string, kind: Kind,
                                           key: string)
    ensures var calls := CallsFor(u, ws, ref, client, kind, key);
      |calls| == |ws| && forall k :: 0 <= k < |ws| ==>
        IsRecordOf(calls[k], u, ws[k], ref, client, Slot(kind, key, ws[k].id))
    decreases |ws|
  {
    if ws != [] { CallsAreRecords(u, ws[..|ws| - 1], ref, client, kind, key); }
  }

  /** The step added the usage entry and, if recording took it, the calls, in order; and nothing more. */
  predicate AddsCalls(was: Log, now: Log, u: string, ws: seq<Waiting>, client: string, kind: Kind, key: string)
    requires |was| < |now| && now[|was|].UsageEntry?
  {
    var ref := now[|was|].ref;
    (ref.None? ==> |now| == |was| + 1) &&
    (ref.Some? ==> |now| == |was| + 1 + |ws| && forall k :: 0 <= k < |ws| ==>
      IsRecordOf(now[|was| + 1 + k], u, ws[k], ref.value, client, Slot(kind, key, ws[k].id)))
  }

  lemma SettledAddsCalls(s: State, e: Entry, u: string, kind: Kind, key: string, client: string)
    requires e.UsageEntry?
    ensures var s' := Settled(Say(s, e), u, kind, key, e.ref, client);
      |s.log| < |s'.log| && s'.log[|s.log|] == e && key !in BufferOf(s', kind) &&
      AddsCalls(s.log, s'.log, u, At(BufferOf(s, kind), key), client, kind, key)
  {
    var ws := At(BufferOf(s, kind), key);
    var calls := if e.ref.None? then [] else CallsFor(u, ws, e.ref.value, client, kind, key);
    SettledLog(s, e, u, kind, key, client);
    if e.ref.Some? { CallsAreRecords(u, ws, e.ref.value, client, kind, key); }
    AddedCallsAt(s.log, e, calls);
    AddedAreCalls(s.log, s.log + [e] + calls, e, calls, u, ws, client, kind, key);
  }

  lemma AddedAreCalls(was: Log, now: Log, e: Entry, calls: Log, u: string, ws: seq<Waiting>, client: string, kind: Kind,
                      key: string)
    requires e.UsageEntry? && now == was + [e] + calls
    requires e.ref.None? ==> calls == []
    requires e.ref.Some? ==> |calls| == |ws| && forall k :: 0 <= k < |ws| ==>
      IsRecordOf(calls[k], u, ws[k], e.ref.value, client, Slot(kind, key, ws[k].id))
    ensures |was| < |now| && now[|was|] == e && AddsCalls(was, now, u, ws, client, kind, key)
  {
    AddedCallsAt(was, e, calls);
  }

  lemma AddedCallsAt(log: Log, e: Entry, calls: Log)
    ensures var now := log + [e] + calls;
      |now| == |log| + 1 + |calls| && now[|log|] == e &&
      forall k :: 0 <= k < |calls| ==> now[|log| + 1 + k] == calls[k]
  {
  }

  lemma SettledLog(s: State, e: Entry, u: string, kind: Kind, key: string, client: string)
    requires e.UsageEntry?
    ensures var s' := Settled(Say(s, e), u, kind, key, e.ref, client);
      key !in BufferOf(s', kind) && s'.log == s.log + [e] +
        (if e.ref.None? then [] else CallsFor(u, At(BufferOf(s, kind), key), e.ref.value, client, kind, key))
  {
    SameBuffers(s, e, kind);
  }

  lemma SameBuffers(s: State, e: Entry, kind: Kind)
    ensures BufferOf(Say(s, e), kind) == BufferOf(s, kind)
  {
  }

  /** A Codex completion records the tools that waited in its conversation, against its own row, and uses the turn
      up. */
  lemma CodexCompletionTakesItsTools(s: State, env: Env, u: string, ip: Option<string>, now: int, r: LogRecord)
    requires IsCodexCompletion(r) && Present(r.attrs.conversationId)
    ensures var s', key := Handle(s, env, u, ip, now, r), u + ":" + r.attrs.conversationId.value;
      |s.log| < |s'.log| && s'.log[|s.log|].UsageEntry? && key !in s'.codex && key !in s'.turns &&
      AddsCalls(s.log, s'.log, u, At(s.codex, key), "codex", CodexTools, key)
  {
    var t, key := TurnAt(s, Scoped(u, r.attrs.conversationId.value)), Scoped(u, r.attrs.conversationId.value);
    var q := CodexRequest(env, u, ip, r, t, PromptLengthFor(s, u, r, ""));
    var consumed := ConsumePrompt(s, u, r, "");
    CodexHandled(s, env, u, ip, now, r);
    CodexRecordedTakes(consumed, u, q, RowOf(env, s.log, u, q), r.attrs.conversationId.value);
  }

  lemma CodexRecordedTakes(s: State, u: string, q: Request, ref: Option<UsageRef>, conversation: string)
    requires conversation != ""
    ensures var s', key := CodexRecorded(s, u, q, ref, Some(conversation)), u + ":" + conversation;
      |s.log| < |s'.log| && s'.log[|s.log|].UsageEntry? && key !in s'.codex && key !in s'.turns &&
      AddsCalls(s.log, s'.log, u, At(s.codex, key), "codex", CodexTools, key)
  {
    var e, key := UsageEntry(u, q, ref), Scoped(u, conversation);
    SettledAddsCalls(TurnEnded(s, key), e, u, CodexTools, key, "codex");
    assert TurnEnded(Say(s, e), key) == Say(TurnEnded(s, key), e);
  }

  /** So does a completed message with the tools that waited for it. */
  lemma MessageTakesItsTools(s: State, env: Env, u: string, ip: Option<string>, now: int, r: LogRecord)
    requires IsMessageCompletion(r) && Present(r.attrs.messageId)
    ensures var s', key := Handle(s, env, u, ip, now, r), u + ":" + r.attrs.messageId.value;
      |s.log| < |s'.log| && s'.log[|s.log|].UsageEntry? && key !in s'.message &&
      AddsCalls(s.log, s'.log, u, At(s.message, key), r.service, MessageTools, key)
  {
    var q := MessageRequest(env, u, ip, r);
    MessageHandled(s, env, u, ip, now, r);
    SettledAddsCalls(s, UsageEntry(u, q, RowOf(env, s.log, u, q)), u, MessageTools,
      Scoped(u, r.attrs.messageId.value), r.service);
  }

  lemma {:induction false} SinceSelects(ws: seq<Waiting>, start: int, late: bool)
    ensures forall w :: w in Since(ws, start, late) <==> w in ws && (if late then w.ts >= start else w.ts < start)
  {
    if ws != [] {
      SinceSelects(ws[1..], start, late);
      assert ws == [ws[0]] + ws[1..];
    }
  }

  /** The usage entry is added; if recording took it, so are the calls from before the start, which wait no longer. */
  ghost predicate FlushesEarlier(s: State, s': State, u: string, key: string, start: int) {
    |s.log| < |s'.log| && s'.log[|s.log|].UsageEntry? &&
    (s'.log[|s.log|].ref.None? ==> At(s'.claude, key) == At(s.claude, key) && |s'.log| == |s.log| + 1) &&
    (s'.log[|s.log|].ref.Some? ==>
      (forall w :: w in At(s'.claude, key) <==> w in At(s.claude, key) && w.ts >= start) &&
      exists early ::
        (forall w :: w in early <==> w in At(s.claude, key) && w.ts < start) &&
        AddsCalls(s.log, s'.log, u, early, "claude-code", ClaudeTools, key))
  }

  /** When a Claude request began, in milliseconds; two seconds before its end if it does not say how long it took. */
  function BeganAt(r: LogRecord): int {
    N(r.timeNs) / 1000 / 1000 - (if N(r.attrs.durationMs) > 0 then N(r.attrs.durationMs) else 2000)
  }

  /** A recorded Claude request takes the tools of its prompt that were decided before it began: they can get no result
      any more. Those decided since keep waiting. */
  lemma ClaudeRequestFlushesEarlierTools(s: State, env: Env, u: string, ip: Option<string>, now: int, r: LogRecord)
    requires IsClaudeRequest(r) && Present(r.attrs.promptDotId)
    ensures var s', key := Handle(s, env, u, ip, now, r), u + ":" + r.attrs.promptDotId.value;
      FlushesEarlier(s, s', u, key, BeganAt(r))
  {
    var session, key := OrEmpty(SessionOf(r)), Scoped(u, r.attrs.promptDotId.value);
    var q := ClaudeRequest(env, u, ip, r, PromptLengthFor(s, u, r, session));
    var consumed := ConsumePrompt(s, u, r, session);
    ClaudeHandled(s, env, u, ip, now, r);
    ClaudeBegan(env, u, ip, r, PromptLengthFor(s, u, r, session));
    ClaudeRecordedFlushes(consumed, u, q, RowOf(env, s.log, u, q), r.attrs.promptDotId.value);
  }

  lemma ClaudeBegan(env: Env, u: string, ip: Option<string>, r: LogRecord, length: int)
    ensures WindowStartMs(ClaudeRequest(env, u, ip, r, length)) == BeganAt(r)
  {
  }

  lemma ClaudeRecordedFlushes(s: State, u: string, q: Request, ref: Option<UsageRef>, prompt: string)
    requires prompt != ""
    ensures var s', key := ClaudeRecorded(s, u, q, ref, Some(prompt)), u + ":" + prompt;
      FlushesEarlier(s, s', u, key, WindowStartMs(q))
  {
    if ref.Some? {
      var key, start := Scoped(u, prompt), WindowStartMs(q);
      var ws := At(s.claude, key);
      SinceSelects(ws, start, true);
      SinceSelects(ws, start, false);
      CallsAreRecords(u, Since(ws, start, false), ref.value, "claude-code", ClaudeTools, key);
      var s' := ClaudeRecorded(s, u, q, ref, Some(prompt));
      assert AddsCalls(s.log, s'.log, u, Since(ws, start, false), "claude-code", ClaudeTools, key);
    }
  }

  /** What is kept of a recorded request for the results of its tools: its row, and when it ended in milliseconds. */
  lemma ClaudeRequestIsRemembered(s: State, env: Env, u: string, ip: Option<string>, now: int, r: LogRecord)
    requires IsClaudeRequest(r) && Present(r.attrs.promptDotId)
    ensures var s', key := Handle(s, env, u, ip, now, r), u + ":" + r.attrs.promptDotId.value;
      |s.log| < |s'.log| && s'.log[|s.log|].UsageEntry? &&
      s'.lastUsage == match s'.log[|s.log|].ref
        case None => s.lastUsage
        case Some(ref) => s.lastUsage[key := LastUsage(ref, N(r.timeNs) / 1000 / 1000)]
  {
    var session := OrEmpty(SessionOf(r));
    var q := ClaudeRequest(env, u, ip, r, PromptLengthFor(s, u, r, session));
    ClaudeHandled(s, env, u, ip, now, r);
    ClaudeRecordedRemembers(ConsumePrompt(s, u, r, session), u, q, RowOf(env, s.log, u, q), r.attrs.promptDotId.value);
  }

  lemma ClaudeRecordedRemembers(s: State, u: string, q: Request, ref: Option<UsageRef>, prompt: string)
    requires prompt != ""
    ensures var s' := ClaudeRecorded(s, u, q, ref, Some(prompt));
      |s.log| < |s'.log| && s'.log[|s.log|] == UsageEntry(u, q, ref) &&
      s'.lastUsage == if ref.None? then s.lastUsage
                      else s.lastUsage[u + ":" + prompt := LastUsage(ref.value, q.ts / 1000)]
  {
  }

  // ---------------------------------------------------------------- tool events

  function RecordMs(r: LogRecord): int { (if N(r.timeNs) != 0 then N(r.timeNs) else N(r.observedNs)) / 1_000_000 }

  /** A call is appended; if its id already waits, the first entry with the id gets the name and the duration, as far as
      they are given. */
  predicate IsNoted(was: seq<Waiting>, now: seq<Waiting>, w: Waiting) {
    if forall k :: 0 <= k < |was| ==> was[k].id != w.id then now == was + [w]
    else exists k :: 0 <= k < |was| && IsCompleted(was, now, w, k)
  }

  predicate IsCompleted(was: seq<Waiting>, now: seq<Waiting>, w: Waiting, k: nat)
    requires k < |was|
  {
    was[k].id == w.id && (forall j :: 0 <= j < k ==> was[j].id != w.id) &&
    now == was[k := Waiting(was[k].id, if w.name == "" then was[k].name else w.name, was[k].ts,
                            if w.durationMs == None then was[k].durationMs else w.durationMs)]
  }

  lemma {:induction false} NotedIsNoted(ws: seq<Waiting>, w: Waiting)
    ensures IsNoted(ws, Noted(ws, w), w)
  {
    if ws == [] {
      assert [] + [w] == [w];
    } else if ws[0].id == w.id {
      assert IsCompleted(ws, Noted(ws, w), w, 0);
    } else {
      var rest := Noted(ws[1..], w);
      NotedIsNoted(ws[1..], w);
      if k :| 0 <= k < |ws[1..]| && IsCompleted(ws[1..], rest, w, k) {
        assert IsCompleted(ws, [ws[0]] + rest, w, k + 1);
      } else {
        assert [ws[0]] + (ws[1..] + [w]) == ws + [w];
      }
    }
  }

  /** The decision of a Claude tool waits under its prompt; nothing else changes. */
  lemma ClaudeDecisionWaits(s: State, env: Env, u: string, ip: Option<string>, now: int, r: LogRecord)
    requires IsClaudeCode(r) && r.attrs.eventName == Some("tool_decision") && Present(r.attrs.promptDotId)
    ensures var a, s', key := r.attrs, Handle(s, env, u, ip, now, r), u + ":" + r.attrs.promptDotId.value;
      s' == s.(claude := s.claude[key := At(s'.claude, key)]) &&
      IsNoted(At(s.claude, key), At(s'.claude, key),
              Waiting(TextOr(a.toolUseId, r.generatedId), TextOr(a.toolName, ""), RecordMs(r), None))
  {
    ToolOnly(s, env, u, ip, now, r);
    BufferedIsNoted(s, ClaudeTools, u + ":" + r.attrs.promptDotId.value, Decided(r, r.attrs.toolUseId, None));
    assert HandleTool(s, u, r) == ClaudeDecision(s, u, r);
  }

  /** The decision of a Codex tool waits in its conversation, unless it is the wrapper tool; nothing else changes. */
  lemma CodexDecisionWaits(s: State, env: Env, u: string, ip: Option<string>, now: int, r: LogRecord)
    requires IsCodexClient(r) && r.attrs.eventName == Some("codex.tool_decision") && Present(r.attrs.conversationId)
    ensures var a, s', key := r.attrs, Handle(s, env, u, ip, now, r), u + ":" + r.attrs.conversationId.value;
      if a.toolName == Some("exec") then s' == s
      else
        s' == s.(codex := s.codex[key := At(s'.codex, key)]) &&
        IsNoted(At(s.codex, key), At(s'.codex, key),
                Waiting(TextOr(a.callId, r.generatedId), TextOr(a.toolName, ""), RecordMs(r), None))
  {
    ToolOnly(s, env, u, ip, now, r);
    CodexDecisionOnly(s, u, r);
    BufferedIsNoted(s, CodexTools, u + ":" + r.attrs.conversationId.value, Decided(r, r.attrs.callId, None));
  }

  /** The decision of a message's tool waits for the message, with its duration if it has one. */
  lemma MessageDecisionWaits(s: State, env: Env, u: string, ip: Option<string>, now: int, r: LogRecord)
    requires IsMessageDecision(r) && Present(r.attrs.messageId) && Present(r.attrs.toolName)
    ensures var a, s', key := r.attrs, Handle(s, env, u, ip, now, r), u + ":" + r.attrs.messageId.value;
      s' == s.(message := s.message[key := At(s'.message, key)]) &&
      IsNoted(At(s.message, key), At(s'.message, key),
              Waiting(TextOr(a.callId, r.generatedId), a.toolName.value, RecordMs(r), a.durationMs))
  {
    MessageToolOnly(s, env, u, ip, now, r);
    BufferedIsNoted(s, MessageTools, u + ":" + r.attrs.messageId.value,
                    Decided(r, r.attrs.callId, r.attrs.durationMs));
  }

  lemma CodexDecisionOnly(s: State, u: string, r: LogRecord)
    requires IsCodexClient(r) && r.attrs.eventName == Some("codex.tool_decision")
    ensures HandleTool(s, u, r) == CodexDecision(s, u, r)
  {
  }

  lemma BufferedIsNoted(s: State, kind: Kind, key: string, w: Waiting)
    ensures var s' := Buffered(s, kind, key, w);
      s' == WithBuffer(s, kind, BufferOf(s, kind)[key := At(BufferOf(s', kind), key)]) &&
      IsNoted(At(BufferOf(s, kind), key), At(BufferOf(s', kind), key), w)
  {
    NotedIsNoted(At(BufferOf(s, kind), key), w);
  }

  /** A call waiting under the key leaves it for the log when its result comes, with the result's duration, against the
      prompt's last request if one is known, and in that request's session or else the result's. */
  lemma ClaudeResultIsRecorded(s: State, env: Env, u: string, ip: Option<string>, now: int, r: LogRecord, w: Waiting)
    requires IsClaudeCode(r) && r.attrs.eventName == Some("tool_result")
    requires Present(r.attrs.promptDotId) && Present(r.attrs.toolUseId)
    requires Find(At(s.claude, u + ":" + r.attrs.promptDotId.value), r.attrs.toolUseId.value) == Some(w)
    ensures var a, s', key := r.attrs, Handle(s, env, u, ip, now, r), u + ":" + r.attrs.promptDotId.value;
      var last := if key in s.lastUsage then Some(s.lastUsage[key].ref) else None;
      var session := if last.Some? && Present(last.value.sessionId) then last.value.sessionId else NamedSession(r);
      At(s'.claude, key) == Without(At(s.claude, key), w.id) &&
      s'.log == s.log + [CallEntry(u,
        ToolCall(u + ":" + w.id, if last.Some? then Some(last.value.id) else None, session, w.name, a.durationMs, u,
                 "claude-code", w.ts), Slot(ClaudeTools, key, w.id))]
  {
    ToolOnly(s, env, u, ip, now, r);
    SessionsAgree(r);
    assert Handle(s, env, u, ip, now, r) == ClaudeResult(s, u, r);
  }

  /** A result that says how long a Codex call took completes the call that waits in its conversation; if none does, the
      stored call of that id. */
  lemma CodexResultIsNoted(s: State, env: Env, u: string, ip: Option<string>, now: int, r: LogRecord)
    requires IsCodexClient(r) && r.attrs.eventName == Some("codex.tool_result")
    requires Present(r.attrs.callId) && r.attrs.durationMs.Some? && Present(r.attrs.conversationId)
    ensures var s', key := Handle(s, env, u, ip, now, r), u + ":" + r.attrs.conversationId.value;
      var id := r.attrs.callId.value;
      if exists w :: w in At(s.codex, key) && w.id == id then
        s'.log == s.log && IsTimed(At(s.codex, key), At(s'.codex, key), id, r.attrs.durationMs.value)
      else
        s' == s.(log := s.log + [DurationEntry(u, u + ":" + id, "codex", r.attrs.durationMs.value)])
  {
    var ws := At(s.codex, Scoped(u, r.attrs.conversationId.value));
    ToolOnly(s, env, u, ip, now, r);
    assert Handle(s, env, u, ip, now, r) == CodexResult(s, u, r);
    TimedIsTimed(ws, r.attrs.callId.value, r.attrs.durationMs.value);
    if w :| w in ws && w.id == r.attrs.callId.value {
      var k :| 0 <= k < |ws| && ws[k] == w;
      assert Holds(ws, r.attrs.callId.value);
    }
  }

  /** The first entry with the id has the duration, and no other has changed. */
  predicate IsTimed(was: seq<Waiting>, now: seq<Waiting>, id: string, durationMs: int) {
    exists k :: 0 <= k < |was| && IsTimedAt(was, now, id, durationMs, k)
  }

  predicate IsTimedAt(was: seq<Waiting>, now: seq<Waiting>, id: string, durationMs: int, k: nat)
    requires k < |was|
  {
    was[k].id == id && (forall j :: 0 <= j < k ==> was[j].id != id) &&
    now == was[k := was[k].(durationMs := Some(durationMs))]
  }

  lemma {:induction false} TimedIsTimed(ws: seq<Waiting>, id: string, durationMs: int)
    ensures Holds(ws, id) ==> IsTimed(ws, Timed(ws, id, durationMs), id, durationMs)
  {
    if ws != [] && Holds(ws, id) {
      HoldsCons(ws[0], ws[1..]);
      assert ws == [ws[0]] + ws[1..];
      if ws[0].id == id {
        TimedFirst(ws, id, durationMs);
      } else {
        var rest := Timed(ws[1..], id, durationMs);
        TimedIsTimed(ws[1..], id, durationMs);
        var k :| 0 <= k < |ws[1..]| && IsTimedAt(ws[1..], rest, id, durationMs, k);
        TimedLater(ws, rest, id, durationMs, k);
      }
    }
  }

  lemma TimedFirst(ws: seq<Waiting>, id: string, durationMs: int)
    requires ws != [] && ws[0].id == id
    ensures IsTimedAt(ws, [ws[0].(durationMs := Some(durationMs))] + ws[1..], id, durationMs, 0)
  {
  }

  lemma TimedLater(ws: seq<Waiting>, rest: seq<Waiting>, id: string, durationMs: int, k: nat)
    requires ws != [] && ws[0].id != id && k < |ws[1..]| && IsTimedAt(ws[1..], rest, id, durationMs, k)
    ensures IsTimedAt(ws, [ws[0]] + rest, id, durationMs, k + 1)
  {
    forall j | 0 <= j < k + 1 ensures ws[j].id != id { if j > 0 { assert ws[1..][j - 1].id != id; } }
  }

  predicate IsMessageDecision(r: LogRecord) {
    (r.service == "opencode" && r.attrs.eventName == Some("opencode.tool_decision")) ||
    (r.service == "kilo" && r.attrs.eventName == Some("kilo.tool_decision"))
  }

  predicate IsAgentTool(r: LogRecord) {
    (IsClaudeCode(r) && r.attrs.eventName in {Some("tool_decision"), Some("tool_result")}) ||
    (IsCodexClient(r) && r.attrs.eventName in {Some("codex.tool_decision"), Some("codex.tool_result")})
  }

  lemma ToolOnly(s: State, env: Env, u: string, ip: Option<string>, now: int, r: LogRecord)
    requires IsAgentTool(r)
    ensures Handle(s, env, u, ip, now, r) == HandleTool(s, u, r)
  {
    OneKindOfEvent(HandleTool(s, u, r), env, u, ip, now, r);
    assert NotePrompt(s, u, now, r) == s;
  }

  lemma MessageToolName(r: LogRecord)
    requires IsMessageDecision(r)
    ensures IsMessageService(r.service) && EventName(r) == r.service + ".tool_decision" && !IsPromptEvent(EventName(r))
    ensures !IsCodex(r.service) && r.service != "claude-code" && !IsUsageEvent(r)
  {
    assert "opencode" + ".tool_decision" == "opencode.tool_decision";
    assert "kilo" + ".tool_decision" == "kilo.tool_decision";
    assert |r.service + ".message_completed"| != |r.service + ".tool_decision"|;
  }

  lemma MessageToolOnly(s: State, env: Env, u: string, ip: Option<string>, now: int, r: LogRecord)
    requires IsMessageDecision(r)
    ensures Handle(s, env, u, ip, now, r) == MessageDecision(s, u, r)
  {
    MessageToolName(r);
    assert NotePrompt(s, u, now, r) == s;
    OneKindOfEvent(HandleTool(s, u, r), env, u, ip, now, r);
  }

  // ---------------------------------------------------------------- what is known of a turn

  /** The events that tell about a turn before it completes. */
  predicate TellsOfTurn(r: LogRecord) {
    IsCodexClient(r) &&
    (r.attrs.eventName in {Some("codex.websocket_request"), Some("codex.api_request")} ||
     (r.attrs.eventName == Some("codex.sse_event") &&
      r.attrs.eventKind in {Some("codex.api_request"), Some("response.created")}))
  }

  /** A websocket request tells when the turn started, an api request how long it took, a created response when the
      first token came; each only if the event says so. What was known besides stays, and the turn is as old as its
      first event. */
  lemma TurnLearns(s: State, env: Env, u: string, ip: Option<string>, now: int, r: LogRecord)
    requires TellsOfTurn(r) && Present(r.attrs.conversationId)
    ensures var a, key, s' := r.attrs, u + ":" + r.attrs.conversationId.value, Handle(s, env, u, ip, now, r);
      var t := if key in s.turns then s.turns[key] else Turn(now, None, None, None);
      s' == s.(turns := s'.turns) && key in s'.turns && s'.turns == s.turns[key := s'.turns[key]] &&
      s'.turns[key].ts == t.ts &&
      (if a.eventName == Some("codex.websocket_request") then
         s'.turns[key] == t.(startMs := if a.eventTimeMs == None then t.startMs else a.eventTimeMs)
       else if a.eventName == Some("codex.api_request") || a.eventKind == Some("codex.api_request") then
         s'.turns[key] == t.(durationMs := if a.durationMs == None then t.durationMs else a.durationMs)
       else s'.turns[key] == t.(ttftMs := if a.durationMs == None then t.ttftMs else a.durationMs))
  {
    TurnEventOnly(s, env, u, ip, now, r);
    NextTurnLearns(TurnAt(s, Scoped(u, r.attrs.conversationId.value)), now, r);
  }

  lemma TurnEventOnly(s: State, env: Env, u: string, ip: Option<string>, now: int, r: LogRecord)
    requires TellsOfTurn(r)
    ensures Handle(s, env, u, ip, now, r) == CodexState(s, u, now, r)
  {
    assert IsStateEvent(r);
    UsageOnly(s, env, u, ip, now, r);
  }

  lemma NextTurnLearns(was: Option<Turn>, now: int, r: LogRecord)
    requires TellsOfTurn(r)
    ensures var a, t' := r.attrs, NextTurn(was, now, r);
      var t := if was.Some? then was.value else Turn(now, None, None, None);
      t'.ts == t.ts &&
      (if a.eventName == Some("codex.websocket_request") then
         t' == t.(startMs := if a.eventTimeMs == None then t.startMs else a.eventTimeMs)
       else if a.eventName == Some("codex.api_request") || a.eventKind == Some("codex.api_request") then
         t' == t.(durationMs := if a.durationMs == None then t.durationMs else a.durationMs)
       else t' == t.(ttftMs := if a.durationMs == None then t.ttftMs else a.durationMs))
  {
  }

  // ---------------------------------------------------------------- what goes stale

  /** A sweep takes exactly the lists of calls whose last one is from more than ten minutes ago, and the turns, last
      requests and prompt lengths that are older than that; what it leaves is as it was. */
  lemma SweepTakesWhatIsStale(s: State, now: int, key: string)
    ensures var s' := Evict(s, now);
      s'.log == s.log &&
      SweptList(s.claude, s'.claude, now, key) && SweptList(s.codex, s'.codex, now, key) &&
      SweptList(s.message, s'.message, now, key) &&
      (key in s'.turns <==> key in s.turns && now - s.turns[key].ts <= 600 * 1_000_000) &&
      (key in s'.turns ==> s'.turns[key] == s.turns[key]) &&
      (key in s'.lastUsage <==> key in s.lastUsage && now / 1000 - s.lastUsage[key].tsMs <= 600 * 1000) &&
      (key in s'.lastUsage ==> s'.lastUsage[key] == s.lastUsage[key]) &&
      (key in s'.prompts <==> key in s.prompts && now - s.prompts[key].ts <= 600 * 1_000_000) &&
      (key in s'.prompts ==> s'.prompts[key] == s.prompts[key])
  {
  }

  predicate SweptList(was: Buffer, now_: Buffer, now: int, key: string) {
    (key in now_ <==> key in was && (|was[key]| > 0 ==> now / 1000 - was[key][|was[key]| - 1].ts <= 600 * 1000)) &&
    (key in now_ ==> now_[key] == was[key])
  }

  // ---------------------------------------------------------------- which records of a post get in

  /** Of the records of a post, those of retired services do not count; of the others the first get in, up to the limit,
      in order. */
  lemma FirstRecordsGetIn(rs: seq<LogRecord>, limit: nat)
    ensures Accepted(rs, limit) <= Live(rs)
    ensures |Accepted(rs, limit)| == if |Live(rs)| < limit then |Live(rs)| else limit
  {
  }

  lemma {:induction false} LiveRecordsAreKept(rs: seq<LogRecord>, r: LogRecord)
    ensures Live([]) == []
    ensures Live(rs + [r]) == if r.service == "gemini-cli" then Live(rs) else Live(rs) + [r]
  {
    assert (rs + [r])[..|rs|] == rs;
  }

  // ---------------------------------------------------------------- prompt lengths

  /** The strongest identifier two events of a client can share: the prompt, else the conversation, else the session. */
  datatype Thread = ThePrompt(id: string) | TheConversation(id: string) | TheSession(id: string) | Nothing

  function ThreadOf(r: LogRecord): Thread {
    var a := r.attrs;
    if TextOr(a.promptDotId, TextOr(a.promptId, "")) != "" then ThePrompt(TextOr(a.promptDotId, TextOr(a.promptId, "")))
    else if TextOr(a.conversationId, "") != "" then TheConversation(a.conversationId.value)
    else if IsCodexClient(r) then (if TextOr(a.sessionId, "") != "" then TheSession(a.sessionId.value) else Nothing)
    else if NamedSession(r).Some? then TheSession(NamedSession(r).value)
    else Nothing
  }

  function ThreadKey(service: string, t: Thread): Option<string> {
    match t
    case ThePrompt(id) => Some(service + ":prompt:" + id)
    case TheConversation(id) => Some(service + ":conversation:" + id)
    case TheSession(id) => Some(service + ":session:" + id)
    case Nothing => None
  }

  lemma KeysAreThreads(r: LogRecord)
    ensures PromptKey(r, OrEmpty(SessionOf(r))) == ThreadKey(r.service, ThreadOf(r))
    ensures IsCodexClient(r) ==> PromptKey(r, "") == ThreadKey(r.service, ThreadOf(r))
  {
    SessionsAgree(r);
  }

  /** Events of one client meet in one queue exactly when they belong to one thread. */
  lemma OneThreadOneQueue(service: string, t: Thread, t': Thread)
    ensures ThreadKey(service, t) == ThreadKey(service, t') <==> t == t'
  {
    if ThreadKey(service, t).Some? && ThreadKey(service, t) == ThreadKey(service, t') {
      var k := ThreadKey(service, t).value[|service| + 1..];
      assert ThreadKey(service, t').value[|service| + 1..] == k;
      assert k[0] == (match t case ThePrompt(_) => 'p' case TheConversation(_) => 'c' case _ => 's');
      assert k[0] == (match t' case ThePrompt(_) => 'p' case TheConversation(_) => 'c' case _ => 's');
      assert t.ThePrompt? ==> k[7..] == t.id && k[7..] == t'.id;
      assert t.TheConversation? ==> k[13..] == t.id && k[13..] == t'.id;
      assert t.TheSession? ==> k[8..] == t.id && k[8..] == t'.id;
    }
  }
}
