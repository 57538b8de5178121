/** The correlation engine of the OTLP receiver (src/otlp.py): the events of a user's clients arrive in
    posts and are joined, through buffers keyed by user and correlation id, into usage and tool-call
    records. The functions are the state machine; `Collector` is the code that runs it in place. */
module Otlp {
  import opened Basics
  import opened Rates
  import opened Requests
  import opened Correlation

  const CLAUDE_TOOL_FLUSH_GRACE_MS := 2000
  const STALE_MS := 600_000
  const STALE_MICROS := 600_000_000

  predicate IsCodex(service: string) {
    service == "codex_cli_rs" || service == "codex_exec" || service == "codex-app-server"
  }
  predicate IsMessageService(service: string) { service == "opencode" || service == "kilo" }
  predicate IsRetired(service: string) { service == "gemini-cli" }
  predicate IsPromptEvent(name: string) { name == "user_prompt" || name == "codex.user_prompt" }

  // ---------------------------------------------------------------- what arrives

  /** The decoded attributes of a log record; None when the attribute is absent. The token attributes have
      other names in other clients but play the same parts. */
  datatype Attributes = Attributes(
    eventName: Option<string>, eventKind: Option<string>, sessionId: Option<string>,
    conversationId: Option<string>, promptDotId: Option<string>, promptId: Option<string>,
    messageId: Option<string>, toolName: Option<string>, toolUseId: Option<string>, callId: Option<string>,
    eventTimeMs: Option<int>, durationMs: Option<int>, ttftMs: Option<int>, promptLength: Option<int>,
    input: Option<int>, output: Option<int>, cached: Option<int>, cacheCreation: Option<int>,
    reasoning: Option<int>, toolTokens: Option<int>, status: Option<int>,
    model: Option<string>, provider: Option<string>)

  /** `generatedId` is the random id used when the client sends none. */
  datatype LogRecord = LogRecord(
    service: string, resourceSession: string, timeNs: Option<int>, observedNs: Option<int>,
    attrs: Attributes, generatedId: string)

  /** One request to `/v1/logs`, taken as a single step. */
  datatype Post = Post(user: string, clientIp: Option<string>, now: int, records: seq<LogRecord>)

  function EventName(r: LogRecord): string { OrEmpty(r.attrs.eventName) }

  function Or(o: Option<string>, fallback: string): string { if Present(o) then o.value else fallback }

  /** `_record_ts_ms`. */
  function TimeMs(r: LogRecord): int { RecordNs(r) / 1_000_000 }

  function RecordNs(r: LogRecord): int {
    if OrZero(r.timeNs) == 0 then OrZero(r.observedNs) else r.timeNs.value
  }

  /** `_usage_session_id`. */
  function SessionOf(r: LogRecord): Option<string> {
    if IsCodex(r.service) then (if Present(r.attrs.conversationId) then r.attrs.conversationId else None)
    else if Present(r.attrs.sessionId) then r.attrs.sessionId
    else if r.resourceSession != "" then Some(r.resourceSession)
    else None
  }

  /** `PromptLengthTracker._key_for`, before scoping. */
  function PromptKey(r: LogRecord, session: string): Option<string> {
    var prompt := Or(r.attrs.promptDotId, OrEmpty(r.attrs.promptId));
    var sid := Or(r.attrs.sessionId, session);
    if prompt != "" then Some(r.service + ":prompt:" + prompt)
    else if Present(r.attrs.conversationId) then Some(r.service + ":conversation:" + r.attrs.conversationId.value)
    else if sid != "" then Some(r.service + ":session:" + sid)
    else None
  }

  // ---------------------------------------------------------------- what is recorded

  datatype UsageRef = UsageRef(id: string, sessionId: Option<string>)

  datatype ToolCall = ToolCall(
    toolUseId: string, usageId: Option<string>, sessionId: Option<string>, name: string,
    durationMs: Option<int>, userId: string, clientSource: string, ts: int)

  datatype Kind = ClaudeTools | CodexTools | MessageTools

  /** A place in a buffer: at most one waiting call per buffer, key and tool id. */
  datatype Slot = Slot(kind: Kind, key: string, id: string)

  /** The calls into the recorder. A tool call remembers the buffer slot it came from. */
  datatype Entry = UsageEntry(user: string, request: Request, ref: Option<UsageRef>)
                 | CallEntry(user: string, call: ToolCall, from: Slot)
                 | DurationEntry(user: string, toolUseId: string, clientSource: string, durationMs: int)

  type Log = seq<Entry>

  /** The entries made for one user. */
  function Own(log: Log, user: string): Log {
    if log == [] then []
    else
      var last := log[|log| - 1];
      Own(log[..|log| - 1], user) + (if last.user == user then [last] else [])
  }

  /** What the engine asks of the rest of the program: the provider a client stands for, and the usage row
      that recording a request yields. The row depends on the user's own earlier records, because
      duplicates are looked up within the user's rows. */
  datatype Env = Env(provider: (string, Option<string>) -> string, row: (Log, Request) -> UsageRef)

  // ---------------------------------------------------------------- the state

  /** `codex_state`: what is known of a conversation's request in flight. */
  datatype Turn = Turn(ts: int, startMs: Option<int>, durationMs: Option<int>, ttftMs: Option<int>)

  /** `_claude_last_usage`. */
  datatype LastUsage = LastUsage(ref: UsageRef, tsMs: int)

  datatype State = State(
    claude: Buffer, codex: Buffer, message: Buffer, turns: map<string, Turn>,
    lastUsage: map<string, LastUsage>, prompts: Prompts, log: Log)

  const EMPTY := State(map[], map[], map[], map[], map[], map[], [])

  function BufferOf(s: State, kind: Kind): Buffer {
    match kind
    case ClaudeTools => s.claude
    case CodexTools => s.codex
    case MessageTools => s.message
  }

  function WithBuffer(s: State, kind: Kind, b: Buffer): State {
    match kind
    case ClaudeTools => s.(claude := b)
    case CodexTools => s.(codex := b)
    case MessageTools => s.(message := b)
  }

  // ---------------------------------------------------------------- eviction

  predicate IsFreshList(ws: seq<Waiting>, now: int) {
    ws == [] || now / 1000 - ws[|ws| - 1].ts <= STALE_MS
  }

  function EvictBuffer(b: Buffer, now: int): Buffer {
    map k | k in b && IsFreshList(b[k], now) :: b[k]
  }

  function EvictTurns(m: map<string, Turn>, now: int): map<string, Turn> {
    map k | k in m && now - m[k].ts <= STALE_MICROS :: m[k]
  }

  function EvictLastUsage(m: map<string, LastUsage>, now: int): map<string, LastUsage> {
    map k | k in m && now / 1000 - m[k].tsMs <= STALE_MS :: m[k]
  }

  function EvictPrompts(m: Prompts, now: int): Prompts {
    map k | k in m && now - m[k].ts <= STALE_MICROS :: m[k]
  }

  /** The start of every post drops, for all users, what has been waiting for more than ten minutes. */
  function Evict(s: State, now: int): State {
    s.(claude := EvictBuffer(s.claude, now), codex := EvictBuffer(s.codex, now), message := EvictBuffer(s.message, now),
       turns := EvictTurns(s.turns, now), lastUsage := EvictLastUsage(s.lastUsage, now),
       prompts := EvictPrompts(s.prompts, now))
  }

  // ---------------------------------------------------------------- recording

  /** `record_usage`: the row, or None when a success carries no tokens. */
  function RowOf(env: Env, log: Log, user: string, q: Request): Option<UsageRef> {
    if Skipped(q) then None else Some(env.row(Own(log, user), q))
  }

  function CallFor(user: string, w: Waiting, ref: Option<UsageRef>, session: Option<string>, source: string): ToolCall {
    ToolCall(Scoped(user, w.id), if ref.Some? then Some(ref.value.id) else None, session, w.name, w.durationMs,
             user, source, w.ts)
  }

  /** The tool calls of one buffer key, recorded in order against one usage row. */
  function CallsFor(user: string, ws: seq<Waiting>, ref: UsageRef, source: string, kind: Kind, key: string): Log {
    if ws == [] then []
    else
      var w := ws[|ws| - 1];
      CallsFor(user, ws[..|ws| - 1], ref, source, kind, key) +
      [CallEntry(user, CallFor(user, w, Some(ref), ref.sessionId, source), Slot(kind, key, w.id))]
  }

  // ---------------------------------------------------------------- the changes an event can make

  function Say(s: State, e: Entry): State { s.(log := s.log + [e]) }

  function Enqueue(s: State, key: string, length: int, now: int): State {
    s.(prompts := Queued(s.prompts, key, length, now))
  }

  function Dequeue(s: State, key: string): State { s.(prompts := Consumed(s.prompts, key)) }

  /** `_buffer_tool_call` under a key. */
  function Buffered(s: State, kind: Kind, key: string, w: Waiting): State {
    WithBuffer(s, kind, BufferOf(s, kind)[key := Noted(At(BufferOf(s, kind), key), w)])
  }

  /** `_buffer_tool_duration` on a call that is waiting. */
  function Enriched(s: State, key: string, id: string, durationMs: int): State {
    if key in s.codex then s.(codex := s.codex[key := Timed(s.codex[key], id, durationMs)]) else s
  }

  /** Calls leave a buffer for the log. */
  function Moved(s: State, kind: Kind, b: Buffer, calls: Log): State {
    WithBuffer(s, kind, b).(log := s.log + calls)
  }

  /** A result takes its call out of the buffer and records it, against the last usage row of the prompt. */
  function Finished(s: State, user: string, key: string, id: string, durationMs: Option<int>,
                    session: Option<string>): State {
    var found := Find(At(s.claude, key), id);
    if found.None? then s
    else
      var w := found.value.(durationMs := durationMs);
      var last := if key in s.lastUsage then Some(s.lastUsage[key].ref) else None;
      var sid := if last.Some? && Present(last.value.sessionId) then last.value.sessionId else session;
      Moved(s, ClaudeTools, Put(s.claude, key, Without(s.claude[key], id)),
            [CallEntry(user, CallFor(user, w, last, sid, "claude-code"), Slot(ClaudeTools, key, id))])
  }

  /** `_flush_claude_tools`. A request of the same prompt can only start once the tools of the one before have
      their results: what was decided earlier is recorded as it is, what came later keeps waiting. */
  function Flushed(s: State, user: string, key: string, ref: UsageRef, startMs: int): State {
    if key !in s.claude then s
    else
      Moved(s, ClaudeTools, Put(s.claude, key, Since(s.claude[key], startMs, true)),
            CallsFor(user, Since(s.claude[key], startMs, false), ref, "claude-code", ClaudeTools, key))
  }

  /** Everything waiting under a key leaves its buffer, and is recorded if the usage was. */
  function Settled(s: State, user: string, kind: Kind, key: string, ref: Option<UsageRef>, source: string): State {
    var b := BufferOf(s, kind);
    Moved(s, kind, b - {key}, if ref.None? then [] else CallsFor(user, At(b, key), ref.value, source, kind, key))
  }

  function LastUsed(s: State, key: string, last: LastUsage): State { s.(lastUsage := s.lastUsage[key := last]) }

  function TurnAt(s: State, key: string): Option<Turn> { if key in s.turns then Some(s.turns[key]) else None }

  function Turned(s: State, key: string, t: Turn): State { s.(turns := s.turns[key := t]) }

  function TurnEnded(s: State, key: string): State { s.(turns := s.turns - {key}) }

  // ---------------------------------------------------------------- the handlers

  function NotePrompt(s: State, user: string, now: int, r: LogRecord): State {
    var key := PromptKey(r, OrEmpty(SessionOf(r)));
    if r.attrs.promptLength.None? || !IsPromptEvent(EventName(r)) || key.None? then s
    else Enqueue(s, Scoped(user, key.value), r.attrs.promptLength.value, now)
  }

  /** `consume_for_usage_event`: the inline value, else the oldest queued one. */
  function PromptLengthFor(s: State, user: string, r: LogRecord, session: string): int {
    var key := PromptKey(r, session);
    if r.attrs.promptLength.Some? then r.attrs.promptLength.value
    else if key.None? then 0
    else NextLength(s.prompts, Scoped(user, key.value))
  }

  function ConsumePrompt(s: State, user: string, r: LogRecord, session: string): State {
    var key := PromptKey(r, session);
    if r.attrs.promptLength.Some? || key.None? then s else Dequeue(s, Scoped(user, key.value))
  }

  function Decided(r: LogRecord, id: Option<string>, durationMs: Option<int>): Waiting {
    Waiting(Or(id, r.generatedId), OrEmpty(r.attrs.toolName), TimeMs(r), durationMs)
  }

  function ClaudeDecision(s: State, user: string, r: LogRecord): State {
    if !Present(r.attrs.promptDotId) then s
    else Buffered(s, ClaudeTools, Scoped(user, r.attrs.promptDotId.value), Decided(r, r.attrs.toolUseId, None))
  }

  function ClaudeResult(s: State, user: string, r: LogRecord): State {
    if !Present(r.attrs.promptDotId) || !Present(r.attrs.toolUseId) then s
    else
      Finished(s, user, Scoped(user, r.attrs.promptDotId.value), r.attrs.toolUseId.value, r.attrs.durationMs,
        SessionOf(r))
  }

  function CodexDecision(s: State, user: string, r: LogRecord): State {
    if OrEmpty(r.attrs.toolName) == "exec" || !Present(r.attrs.conversationId) then s
    else Buffered(s, CodexTools, Scoped(user, r.attrs.conversationId.value), Decided(r, r.attrs.callId, None))
  }

  /** A trailing duration completes the waiting call, or else the call already stored. */
  function CodexResult(s: State, user: string, r: LogRecord): State {
    if r.attrs.durationMs.None? then s
    else
      var key, id := Scoped(user, OrEmpty(r.attrs.conversationId)), OrEmpty(r.attrs.callId);
      if Present(r.attrs.conversationId) && Holds(At(s.codex, key), id) then
        Enriched(s, key, id, r.attrs.durationMs.value)
      else if id != "" then
        Say(s, DurationEntry(user, Scoped(user, id), "codex", r.attrs.durationMs.value))
      else s
  }

  function MessageDecision(s: State, user: string, r: LogRecord): State {
    if !Present(r.attrs.messageId) || !Present(r.attrs.toolName) then s
    else Buffered(s, MessageTools, Scoped(user, r.attrs.messageId.value),
      Decided(r, r.attrs.callId, r.attrs.durationMs))
  }

  function HandleTool(s: State, user: string, r: LogRecord): State {
    var name := EventName(r);
    if name == "tool_decision" && r.service == "claude-code" then ClaudeDecision(s, user, r)
    else if name == "tool_result" && r.service == "claude-code" then ClaudeResult(s, user, r)
    else if name == "codex.tool_decision" && IsCodex(r.service) then CodexDecision(s, user, r)
    else if name == "codex.tool_result" && IsCodex(r.service) then CodexResult(s, user, r)
    else if IsMessageService(r.service) && name == r.service + ".tool_decision" then MessageDecision(s, user, r)
    else s
  }

  // ---- usage events

  function ClaudeRequest(env: Env, user: string, ip: Option<string>, r: LogRecord, promptLength: int): Request {
    var a := r.attrs;
    var prompt := OrZero(a.input) + OrZero(a.cached);
    Request(OrZero(r.timeNs) / 1000, env.provider("claude", None), Or(a.model, "claude-unknown"), Some(user),
            Some("claude-code"), SessionOf(r), "otlp", Tokens(Some(prompt), a.output, a.cached, a.cacheCreation),
            Some(promptLength), None, None, Some(prompt + OrZero(a.output) + OrZero(a.cacheCreation)),
            a.durationMs, None, a.status, ip)
  }

  function WindowStartMs(q: Request): int {
    q.ts / 1000 - (if OrZero(q.latencyMs) > 0 then OrZero(q.latencyMs) else CLAUDE_TOOL_FLUSH_GRACE_MS)
  }

  function ClaudeUsage(s: State, env: Env, user: string, ip: Option<string>, r: LogRecord): State {
    var session := OrEmpty(SessionOf(r));
    var q := ClaudeRequest(env, user, ip, r, PromptLengthFor(s, user, r, session));
    ClaudeRecorded(ConsumePrompt(s, user, r, session), user, q, RowOf(env, s.log, user, q), r.attrs.promptDotId)
  }

  function ClaudeRecorded(s: State, user: string, q: Request, ref: Option<UsageRef>, prompt: Option<string>): State {
    var said := Say(s, UsageEntry(user, q, ref));
    if ref.None? || !Present(prompt) then said
    else
      var key := Scoped(user, prompt.value);
      LastUsed(Flushed(said, user, key, ref.value, WindowStartMs(q)), key, LastUsage(ref.value, q.ts / 1000))
  }

  /** The events `_handle_codex_state_event` consumes without a usage row. */
  predicate IsStateEvent(r: LogRecord) {
    EventName(r) == "codex.websocket_request" || EventName(r) == "codex.api_request" ||
    r.attrs.eventKind == Some("codex.api_request") || r.attrs.eventKind == Some("response.created")
  }

  function NextTurn(t: Option<Turn>, now: int, r: LogRecord): Turn {
    var u := if t.Some? then t.value else Turn(now, None, None, None);
    if EventName(r) == "codex.websocket_request" then
      u.(startMs := if r.attrs.eventTimeMs.Some? then r.attrs.eventTimeMs else u.startMs)
    else if r.attrs.eventKind == Some("codex.api_request") || EventName(r) == "codex.api_request" then
      u.(durationMs := if r.attrs.durationMs.Some? then r.attrs.durationMs else u.durationMs)
    else
      u.(ttftMs := if r.attrs.durationMs.Some? then r.attrs.durationMs else u.ttftMs)
  }

  function CodexState(s: State, user: string, now: int, r: LogRecord): State {
    if !Present(r.attrs.conversationId) then s
    else
      var key := Scoped(user, r.attrs.conversationId.value);
      Turned(s, key, NextTurn(TurnAt(s, key), now, r))
  }

  /** The turn's own duration, else the time since its start, else what the event says. */
  function Latency(t: Option<Turn>, r: LogRecord): Option<int> {
    if t.Some? && t.value.durationMs.Some? then t.value.durationMs
    else if t.Some? && t.value.startMs.Some? && r.attrs.eventTimeMs.Some? &&
      r.attrs.eventTimeMs.value >= t.value.startMs.value
    then Some(r.attrs.eventTimeMs.value - t.value.startMs.value)
    else r.attrs.durationMs
  }

  function CodexRequest(env: Env, user: string, ip: Option<string>, r: LogRecord, t: Option<Turn>,
                        promptLength: int): Request {
    var a := r.attrs;
    Request(if a.eventTimeMs.Some? then a.eventTimeMs.value * 1000 else RecordNs(r) / 1000,
            env.provider("codex", None), Or(a.model, "codex-unknown"), Some(user), Some("codex"), a.conversationId,
            "otlp", Tokens(Some(OrZero(a.input)), Some(OrZero(a.output)), a.cached, None), Some(promptLength),
            a.reasoning, a.toolTokens, Some(OrZero(a.input) + OrZero(a.output)), Latency(t, r),
            if a.ttftMs.Some? || t.None? then a.ttftMs else t.value.ttftMs, a.status, ip)
  }

  predicate CompletesCodex(r: LogRecord) {
    r.attrs.eventKind == Some("response.completed") && r.attrs.input.Some?
  }

  function CodexUsage(s: State, env: Env, user: string, ip: Option<string>, r: LogRecord): State {
    if !CompletesCodex(r) then s
    else
      var t := if Present(r.attrs.conversationId) then TurnAt(s, Scoped(user, r.attrs.conversationId.value)) else None;
      var q := CodexRequest(env, user, ip, r, t, PromptLengthFor(s, user, r, ""));
      CodexRecorded(ConsumePrompt(s, user, r, ""), user, q, RowOf(env, s.log, user, q), r.attrs.conversationId)
  }

  function CodexRecorded(s: State, user: string, q: Request, ref: Option<UsageRef>,
                         conversation: Option<string>): State {
    var said := Say(s, UsageEntry(user, q, ref));
    if !Present(conversation) then said
    else
      var key := Scoped(user, conversation.value);
      Settled(TurnEnded(said, key), user, CodexTools, key, ref, "codex")
  }

  function MessageRequest(env: Env, user: string, ip: Option<string>, r: LogRecord): Request {
    var a := r.attrs;
    var prompt := OrZero(a.input) + OrZero(a.cached);
    var completion := if a.output.Some? then Some(a.output.value + OrZero(a.reasoning)) else None;
    Request(OrZero(r.timeNs) / 1000,
      if Present(a.provider) then a.provider.value else env.provider(r.service, a.provider),
            Or(a.model, r.service + "-unknown"), Some(user), Some(r.service), SessionOf(r), "otlp",
            Tokens(Some(prompt), completion, a.cached, a.cacheCreation), Some(OrZero(a.promptLength)), a.reasoning,
            None, Some(prompt + OrZero(completion) + OrZero(a.cacheCreation)), a.durationMs, a.ttftMs, a.status, ip)
  }

  function MessageUsage(s: State, env: Env, user: string, ip: Option<string>, r: LogRecord): State {
    var q := MessageRequest(env, user, ip, r);
    MessageRecorded(s, user, q, RowOf(env, s.log, user, q), r.attrs.messageId, r.service)
  }

  function MessageRecorded(s: State, user: string, q: Request, ref: Option<UsageRef>, message: Option<string>,
                           source: string): State {
    var said := Say(s, UsageEntry(user, q, ref));
    if !Present(message) then said
    else Settled(said, user, MessageTools, Scoped(user, message.value), ref, source)
  }

  function HandleUsage(s: State, env: Env, user: string, ip: Option<string>, now: int, r: LogRecord): State {
    var name := EventName(r);
    if (name == "claude_code.api_request" || name == "api_request") && r.service == "claude-code" then
      ClaudeUsage(s, env, user, ip, r)
    else if name == "codex.sse_event" && IsCodex(r.service) then
      if IsStateEvent(r) then CodexState(s, user, now, r) else CodexUsage(s, env, user, ip, r)
    else if (name == "codex.api_request" || name == "codex.websocket_request") && IsCodex(r.service) then
      CodexState(s, user, now, r)
    else if IsMessageService(r.service) && name == r.service + ".message_completed" then
      MessageUsage(s, env, user, ip, r)
    else s
  }

  /** `_parse_log_record`. */
  function Handle(s: State, env: Env, user: string, ip: Option<string>, now: int, r: LogRecord): State {
    if IsRetired(r.service) then s
    else HandleUsage(HandleTool(NotePrompt(s, user, now, r), user, r), env, user, ip, now, r)
  }

  function HandleAll(s: State, env: Env, user: string, ip: Option<string>, now: int, rs: seq<LogRecord>): State {
    if rs == [] then s
    else Handle(HandleAll(s, env, user, ip, now, rs[..|rs| - 1]), env, user, ip, now, rs[|rs| - 1])
  }

  /** The records a post gets in: those of live services, up to the limit. */
  function Accepted(rs: seq<LogRecord>, limit: nat): seq<LogRecord> {
    var live := Live(rs);
    if |live| > limit then live[..limit] else live
  }

  function Live(rs: seq<LogRecord>): seq<LogRecord> {
    if rs == [] then []
    else Live(rs[..|rs| - 1]) + (if IsRetired(rs[|rs| - 1].service) then [] else [rs[|rs| - 1]])
  }

  /** `receive_logs`. */
  function Received(s: State, env: Env, limit: nat, p: Post): State {
    HandleAll(Evict(s, p.now), env, p.user, p.clientIp, p.now, Accepted(p.records, limit))
  }

  /** A run of posts. */
  function Run(s: State, env: Env, limit: nat, posts: seq<Post>): State {
    if posts == [] then s
    else Received(Run(s, env, limit, posts[..|posts| - 1]), env, limit, posts[|posts| - 1])
  }
}
