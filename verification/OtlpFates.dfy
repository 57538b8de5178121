/** What becomes of a buffered tool call: it leaves its buffer exactly once, and is recorded exactly then
    unless it was evicted or its usage event was skipped. */
module OtlpFates {
  import opened Basics
  import opened Requests
  import opened Correlation
  import opened Otlp

  /** The machine in its smallest steps: a sweep at the start of a post, then its records. */
  datatype Step = Sweep(now: int) | Event(user: string, clientIp: Option<string>, now: int, record: LogRecord)

  function After(s: State, env: Env, step: Step): State {
    match step
    case Sweep(now) => Evict(s, now)
    case Event(user, ip, now, r) => Handle(s, env, user, ip, now, r)
  }

  function AfterAll(s: State, env: Env, steps: seq<Step>): State {
    if steps == [] then s else After(AfterAll(s, env, steps[..|steps| - 1]), env, steps[|steps| - 1])
  }

  predicate Waits(s: State, slot: Slot) { Holds(At(BufferOf(s, slot.kind), slot.key), slot.id) }

  /** The recorded calls that came out of a slot. */
  function Recordings(log: Log, slot: Slot): nat {
    if log == [] then 0
    else
      var e := log[|log| - 1];
      Recordings(log[..|log| - 1], slot) + (if e.CallEntry? && e.from == slot then 1 else 0)
  }

  /** A usage event from position `n` of the log on that recording turned down. */
  predicate HasSkipped(log: Log, n: nat) {
    exists k :: n <= k < |log| && log[k].UsageEntry? && log[k].ref.None?
  }

  datatype Fate = Unchanged | Joins | IsRecorded | IsEvicted | IsDropped

  /** What a step does to a slot, read off the states before and after. */
  function FateIn(s: State, env: Env, step: Step, slot: Slot): Fate {
    var s' := After(s, env, step);
    if Waits(s, slot) == Waits(s', slot) then Unchanged
    else if Waits(s', slot) then Joins
    else if step.Sweep? then IsEvicted
    else if HasSkipped(s'.log, |s.log|) then IsDropped
    else IsRecorded
  }

  function Times(env: Env, steps: seq<Step>, slot: Slot, fate: Fate): nat {
    if steps == [] then 0
    else
      var rest, step := steps[..|steps| - 1], steps[|steps| - 1];
      Times(env, rest, slot, fate) + (if FateIn(AfterAll(EMPTY, env, rest), env, step, slot) == fate then 1 else 0)
  }

  // ---------------------------------------------------------------- well-formed buffers

  predicate ProperList(ws: seq<Waiting>) { ws != [] && DistinctIds(ws) }

  predicate ProperBuffer(b: Buffer) { forall k :: k in b ==> ProperList(b[k]) }

  /** The tool ids under a buffer key are distinct, and no key is kept for an empty list. */
  predicate Proper(s: State) { ProperBuffer(s.claude) && ProperBuffer(s.codex) && ProperBuffer(s.message) }

  // ---------------------------------------------------------------- counting

  lemma RecordingsOfOne(log: Log, e: Entry, slot: Slot)
    ensures Recordings(log + [e], slot) == Recordings(log, slot) + (if e.CallEntry? && e.from == slot then 1 else 0)
  {
    assert (log + [e])[..|log|] == log;
  }

  lemma {:induction false} RecordingsOfConcat(a: Log, b: Log, slot: Slot)
    ensures Recordings(a + b, slot) == Recordings(a, slot) + Recordings(b, slot)
    decreases |b|
  {
    if b == [] {
      assert a + b == a;
    } else {
      assert (a + b)[..|a + b| - 1] == a + b[..|b| - 1];
      RecordingsOfConcat(a, b[..|b| - 1], slot);
    }
  }

  lemma HoldsSnoc(ws: seq<Waiting>, w: Waiting, id: string)
    ensures Holds(ws + [w], id) <==> Holds(ws, id) || w.id == id
    ensures DistinctIds(ws + [w]) ==> DistinctIds(ws) && !Holds(ws, w.id)
  {
    var all := ws + [w];
    assert all[|ws|] == w && forall k :: 0 <= k < |ws| ==> all[k] == ws[k];
    if k :| 0 <= k < |ws| && ws[k].id == id { assert all[k].id == id; }
    if k :| 0 <= k < |all| && all[k].id == id { assert k < |ws| ==> ws[k].id == id; }
  }

  /** An entry that is no usage; a tool call carries the scoped id of the slot it came from. */
  predicate Plain(e: Entry, u: string) {
    e.user == u && !e.UsageEntry? && (e.CallEntry? ==> e.call.toolUseId == Scoped(u, e.from.id) && e.call.userId == u)
  }

  predicate AllPlain(log: Log, u: string) { forall k :: 0 <= k < |log| ==> Plain(log[k], u) }

  /** A list of distinct calls is recorded one call per slot. */
  lemma {:induction false} CallsForCounts(u: string, ws: seq<Waiting>, ref: UsageRef, source: string, kind: Kind,
                                          key: string, slot: Slot)
    requires DistinctIds(ws)
    ensures Recordings(CallsFor(u, ws, ref, source, kind, key), slot) ==
            if slot.kind == kind && slot.key == key && Holds(ws, slot.id) then 1 else 0
    ensures AllPlain(CallsFor(u, ws, ref, source, kind, key), u)
    decreases |ws|
  {
    if ws != [] {
      var rest, w := ws[..|ws| - 1], ws[|ws| - 1];
      assert ws == rest + [w];
      HoldsSnoc(rest, w, slot.id);
      CallsForCounts(u, rest, ref, source, kind, key, slot);
      var calls := CallsFor(u, rest, ref, source, kind, key);
      RecordingsOfOne(calls, CallEntry(u, CallFor(u, w, Some(ref), ref.sessionId, source), Slot(kind, key, w.id)),
        slot);
    }
  }

  // ---------------------------------------------------------------- one change

  /** The slot is left alone: it waits as before, and nothing of it is recorded. */
  predicate Inert(s: State, s': State, slot: Slot) {
    (Proper(s) ==> Proper(s')) && Waits(s', slot) == Waits(s, slot) &&
    Recordings(s'.log, slot) == Recordings(s.log, slot)
  }

  /** A slot is recorded once if it is left and the usage was recorded, and otherwise not at all. */
  predicate Accounted(s: State, s': State, slot: Slot, skipped: bool) {
    (Proper(s) ==> Proper(s')) &&
    Recordings(s'.log, slot) ==
    Recordings(s.log, slot) + (if Waits(s, slot) && !Waits(s', slot) && !skipped then 1 else 0)
  }

  lemma SayIsInert(s: State, e: Entry, slot: Slot)
    requires !e.CallEntry?
    ensures Inert(s, Say(s, e), slot)
  {
    RecordingsOfOne(s.log, e, slot);
    OtherLogIsInert(s, s.log + [e], slot);
  }

  lemma OtherLogIsInert(s: State, log: Log, slot: Slot)
    requires Recordings(log, slot) == Recordings(s.log, slot)
    ensures Inert(s, s.(log := log), slot)
  {
  }

  /** Replacing the list of one key. */
  lemma Refilled(s: State, kind: Kind, key: string, ws: seq<Waiting>, slot: Slot)
    requires ws != [] && (DistinctIds(At(BufferOf(s, kind), key)) ==> DistinctIds(ws))
    ensures var s' := WithBuffer(s, kind, BufferOf(s, kind)[key := ws]);
      (Proper(s) ==> Proper(s')) && s'.log == s.log &&
      Waits(s', slot) == if slot.kind == kind && slot.key == key then Holds(ws, slot.id) else Waits(s, slot)
  {
    PutIsProper(BufferOf(s, kind), key, ws);
  }

  lemma BufferedIsAccounted(s: State, kind: Kind, key: string, w: Waiting, slot: Slot)
    ensures Accounted(s, Buffered(s, kind, key, w), slot, false)
    ensures Waits(Buffered(s, kind, key, w), slot) <==> Waits(s, slot) || slot == Slot(kind, key, w.id)
  {
    NotedHolds(At(BufferOf(s, kind), key), w);
    Refilled(s, kind, key, Noted(At(BufferOf(s, kind), key), w), slot);
  }

  lemma PutIsProper(b: Buffer, key: string, ws: seq<Waiting>)
    requires DistinctIds(At(b, key)) ==> DistinctIds(ws)
    ensures ProperBuffer(b) ==> ProperBuffer(Put(b, key, ws))
    ensures forall k :: At(Put(b, key, ws), k) == if k == key then ws else At(b, k)
  {
    if ProperBuffer(b) {
      assert key in b ==> ProperList(b[key]);
      forall k | k in Put(b, key, ws) ensures ProperList(Put(b, key, ws)[k]) {
        assert k in b ==> ProperList(b[k]);
      }
    }
  }

  lemma EnrichedIsInert(s: State, key: string, id: string, durationMs: int, slot: Slot)
    requires Proper(s)
    ensures Inert(s, Enriched(s, key, id, durationMs), slot)
  {
    if key in s.codex {
      var ws := Timed(s.codex[key], id, durationMs);
      assert ProperList(s.codex[key]);
      SameIdsSameHolds(s.codex[key], ws);
      Refilled(s, CodexTools, key, ws, slot);
      assert Enriched(s, key, id, durationMs) == WithBuffer(s, CodexTools, s.codex[key := ws]);
    }
  }

  lemma MovedIsAccounted(s: State, kind: Kind, key: string, ws: seq<Waiting>, calls: Log, slot: Slot, skipped: bool)
    requires DistinctIds(At(BufferOf(s, kind), key)) ==> DistinctIds(ws)
    requires Recordings(calls, slot) ==
             if slot.kind == kind && slot.key == key && Holds(At(BufferOf(s, kind), key), slot.id) &&
               !Holds(ws, slot.id) && !skipped
             then 1 else 0
    ensures Accounted(s, Moved(s, kind, Put(BufferOf(s, kind), key, ws), calls), slot, skipped)
  {
    PutIsProper(BufferOf(s, kind), key, ws);
    RecordingsOfConcat(s.log, calls, slot);
  }

  lemma ProperAt(s: State, kind: Kind, key: string)
    requires Proper(s)
    ensures DistinctIds(At(BufferOf(s, kind), key))
  {
    var b := BufferOf(s, kind);
    if key in b { assert ProperList(b[key]); }
  }

  lemma FinishedIsAccounted(s: State, u: string, key: string, id: string, d: Option<int>, session: Option<string>,
                            slot: Slot)
    requires Proper(s)
    ensures Accounted(s, Finished(s, u, key, id, d, session), slot, false)
  {
    ProperAt(s, ClaudeTools, key);
    var found := Find(At(s.claude, key), id);
    if found.Some? {
      var calls := Finished(s, u, key, id, d, session).log[|s.log|..];
      assert |calls| == 1 && calls == [] + [calls[0]];
      RecordingsOfOne([], calls[0], slot);
      WithoutHolds(s.claude[key], id);
      MovedIsAccounted(s, ClaudeTools, key, Without(s.claude[key], id), calls, slot, false);
    }
  }

  lemma FlushedIsAccounted(s: State, u: string, key: string, ref: UsageRef, startMs: int, slot: Slot)
    requires Proper(s)
    ensures Accounted(s, Flushed(s, u, key, ref, startMs), slot, false)
  {
    ProperAt(s, ClaudeTools, key);
    if key in s.claude {
      var early := Since(s.claude[key], startMs, false);
      SincePartitions(s.claude[key], startMs, slot.id);
      CallsForCounts(u, early, ref, "claude-code", ClaudeTools, key, slot);
      MovedIsAccounted(s, ClaudeTools, key, Since(s.claude[key], startMs, true),
                       CallsFor(u, early, ref, "claude-code", ClaudeTools, key), slot, false);
    }
  }

  lemma SettledIsAccounted(s: State, u: string, kind: Kind, key: string, ref: Option<UsageRef>, source: string,
                           slot: Slot)
    requires Proper(s)
    ensures Accounted(s, Settled(s, u, kind, key, ref, source), slot, ref.None?)
  {
    ProperAt(s, kind, key);
    var ws := At(BufferOf(s, kind), key);
    if ref.Some? { CallsForCounts(u, ws, ref.value, source, kind, key, slot); }
    MovedIsAccounted(s, kind, key, [], if ref.None? then [] else CallsFor(u, ws, ref.value, source, kind, key), slot,
      ref.None?);
  }

  // ---------------------------------------------------------------- one event

  lemma HandleToolIsAccounted(s: State, u: string, r: LogRecord, slot: Slot)
    requires Proper(s)
    ensures Accounted(s, HandleTool(s, u, r), slot, false)
  {
    var name := EventName(r);
    if name == "tool_decision" && r.service == "claude-code" {
      BufferedIsAccounted(s, ClaudeTools, Scoped(u, OrEmpty(r.attrs.promptDotId)), Decided(r, r.attrs.toolUseId, None),
        slot);
    } else if name == "tool_result" && r.service == "claude-code" {
      FinishedIsAccounted(s, u, Scoped(u, OrEmpty(r.attrs.promptDotId)), OrEmpty(r.attrs.toolUseId), r.attrs.durationMs,
        SessionOf(r), slot);
    } else if name == "codex.tool_decision" && IsCodex(r.service) {
      BufferedIsAccounted(s, CodexTools, Scoped(u, OrEmpty(r.attrs.conversationId)), Decided(r, r.attrs.callId, None),
        slot);
    } else if name == "codex.tool_result" && IsCodex(r.service) {
      CodexResultIsInert(s, u, r, slot);
    } else if IsMessageService(r.service) && name == r.service + ".tool_decision" {
      BufferedIsAccounted(s, MessageTools, Scoped(u, OrEmpty(r.attrs.messageId)),
        Decided(r, r.attrs.callId, r.attrs.durationMs), slot);
    }
  }

  lemma CodexResultIsInert(s: State, u: string, r: LogRecord, slot: Slot)
    requires Proper(s)
    ensures Inert(s, CodexResult(s, u, r), slot)
  {
    if r.attrs.durationMs.Some? {
      var conversation, id, d := OrEmpty(r.attrs.conversationId), OrEmpty(r.attrs.callId), r.attrs.durationMs.value;
      EnrichedIsInert(s, Scoped(u, conversation), id, d, slot);
      SayIsInert(s, DurationEntry(u, Scoped(u, id), "codex", d), slot);
    }
  }

  lemma InertAround(s: State, s1: State, s2: State, s3: State, slot: Slot, skipped: bool)
    requires Inert(s, s1, slot) && Accounted(s1, s2, slot, skipped) && Inert(s2, s3, slot)
    ensures Accounted(s, s3, slot, skipped)
  {
  }

  lemma LastUsedIsInert(s: State, key: string, last: LastUsage, slot: Slot)
    ensures Inert(s, LastUsed(s, key, last), slot)
  {
  }

  lemma TurnEndedIsInert(s: State, key: string, slot: Slot)
    ensures Inert(s, TurnEnded(s, key), slot)
  {
  }

  /** The usage events: which calls they take along, and that nothing is left behind unrecorded otherwise. */
  lemma ClaudeRecordedIsAccounted(s: State, u: string, q: Request, ref: Option<UsageRef>, prompt: Option<string>,
                                  slot: Slot)
    requires Proper(s)
    ensures Accounted(s, ClaudeRecorded(s, u, q, ref, prompt), slot, ref.None?)
  {
    var said := Say(s, UsageEntry(u, q, ref));
    SayIsInert(s, UsageEntry(u, q, ref), slot);
    if ref.Some? && Present(prompt) {
      var key := Scoped(u, prompt.value);
      var flushed := Flushed(said, u, key, ref.value, WindowStartMs(q));
      FlushedIsAccounted(said, u, key, ref.value, WindowStartMs(q), slot);
      LastUsedIsInert(flushed, key, LastUsage(ref.value, q.ts / 1000), slot);
      InertAround(s, said, flushed, LastUsed(flushed, key, LastUsage(ref.value, q.ts / 1000)), slot, false);
    }
  }

  lemma CodexRecordedIsAccounted(s: State, u: string, q: Request, ref: Option<UsageRef>, conversation: Option<string>,
                                 slot: Slot)
    requires Proper(s)
    ensures Accounted(s, CodexRecorded(s, u, q, ref, conversation), slot, ref.None?)
  {
    var said := Say(s, UsageEntry(u, q, ref));
    SayIsInert(s, UsageEntry(u, q, ref), slot);
    if Present(conversation) {
      var key := Scoped(u, conversation.value);
      var ended := TurnEnded(said, key);
      TurnEndedIsInert(said, key, slot);
      var settled := Settled(ended, u, CodexTools, key, ref, "codex");
      SettledIsAccounted(ended, u, CodexTools, key, ref, "codex", slot);
      InertAround(s, ended, settled, settled, slot, ref.None?);
    }
  }

  lemma MessageRecordedIsAccounted(s: State, u: string, q: Request, ref: Option<UsageRef>, message: Option<string>,
                                   source: string, slot: Slot)
    requires Proper(s)
    ensures Accounted(s, MessageRecorded(s, u, q, ref, message, source), slot, ref.None?)
  {
    var said := Say(s, UsageEntry(u, q, ref));
    SayIsInert(s, UsageEntry(u, q, ref), slot);
    if Present(message) { SettledIsAccounted(said, u, MessageTools, Scoped(u, message.value), ref, source, slot); }
  }

  /** The log grew by plain entries of user `u`, except that the first may be `said`. */
  predicate Says(was: Log, now: Log, said: Option<Entry>, u: string) {
    was <= now && (said.Some? ==> |was| < |now| && now[|was|] == said.value) &&
    AllPlain(now[|was| + (if said.Some? then 1 else 0)..], u)
  }

  lemma SaidIsSkipped(was: Log, now: Log, said: Option<Entry>, u: string)
    requires Says(was, now, said, u) && (said.Some? ==> said.value.UsageEntry?)
    ensures HasSkipped(now, |was|) <==> said.Some? && said.value.ref.None?
  {
    var rest := now[|was| + (if said.Some? then 1 else 0)..];
    forall k | |now| - |rest| <= k < |now| ensures !now[k].UsageEntry? {
      assert now[k] == rest[k - (|now| - |rest|)] && Plain(rest[k - (|now| - |rest|)], u);
    }
  }

  lemma SaysThen(was: Log, e: Entry, calls: Log, u: string)
    requires AllPlain(calls, u)
    ensures Says(was, was + [e] + calls, Some(e), u)
    ensures Says(was, was + [e], Some(e), u)
  {
    assert (was + [e] + calls)[|was| + 1..] == calls;
    assert (was + [e])[|was| + 1..] == [];
  }

  lemma ClaudeRecordedSays(s: State, u: string, q: Request, ref: Option<UsageRef>, id: Option<string>, slot: Slot)
    requires Proper(s)
    ensures Says(s.log, ClaudeRecorded(s, u, q, ref, id).log, Some(UsageEntry(u, q, ref)), u)
  {
    SaysThen(s.log, UsageEntry(u, q, ref), [], u);
    if Present(id) && ref.Some? {
      var key := Scoped(u, id.value);
      ProperAt(s, ClaudeTools, key);
      var early := Since(At(s.claude, key), WindowStartMs(q), false);
      CallsForCounts(u, early, ref.value, "claude-code", ClaudeTools, key, slot);
      SaysThen(s.log, UsageEntry(u, q, ref), CallsFor(u, early, ref.value, "claude-code", ClaudeTools, key), u);
    }
  }

  lemma SettledSays(s: State, u: string, kind: Kind, key: string, e: Entry, ref: Option<UsageRef>, source: string,
                    slot: Slot)
    requires Proper(s)
    ensures Says(s.log, Settled(Say(s, e), u, kind, key, ref, source).log, Some(e), u)
  {
    ProperAt(s, kind, key);
    var ws := At(BufferOf(s, kind), key);
    if ref.Some? { CallsForCounts(u, ws, ref.value, source, kind, key, slot); }
    SaysThen(s.log, e, if ref.None? then [] else CallsFor(u, ws, ref.value, source, kind, key), u);
  }

  lemma CodexRecordedSays(s: State, u: string, q: Request, ref: Option<UsageRef>, id: Option<string>, slot: Slot)
    requires Proper(s)
    ensures Says(s.log, CodexRecorded(s, u, q, ref, id).log, Some(UsageEntry(u, q, ref)), u)
  {
    SaysThen(s.log, UsageEntry(u, q, ref), [], u);
    if Present(id) {
      var key := Scoped(u, id.value);
      SettledSays(TurnEnded(s, key), u, CodexTools, key, UsageEntry(u, q, ref), ref, "codex", slot);
    }
  }

  lemma MessageRecordedSays(s: State, u: string, q: Request, ref: Option<UsageRef>, id: Option<string>, source: string,
                            slot: Slot)
    requires Proper(s)
    ensures Says(s.log, MessageRecorded(s, u, q, ref, id, source).log, Some(UsageEntry(u, q, ref)), u)
  {
    SaysThen(s.log, UsageEntry(u, q, ref), [], u);
    if Present(id) { SettledSays(s, u, MessageTools, Scoped(u, id.value), UsageEntry(u, q, ref), ref, source, slot); }
  }

  /** Changes outside the buffers and the log. */
  lemma OutsideIsInert(s: State, s': State, slot: Slot)
    requires s'.claude == s.claude && s'.codex == s.codex && s'.message == s.message && s'.log == s.log
    ensures Inert(s, s', slot)
  {
  }

  lemma PromptsAreInert(s: State, u: string, now: int, r: LogRecord, session: string, slot: Slot)
    ensures Inert(s, NotePrompt(s, u, now, r), slot) && NotePrompt(s, u, now, r).log == s.log
    ensures Inert(s, ConsumePrompt(s, u, r, session), slot) && ConsumePrompt(s, u, r, session).log == s.log
  {
    OutsideIsInert(s, NotePrompt(s, u, now, r), slot);
    OutsideIsInert(s, ConsumePrompt(s, u, r, session), slot);
  }

  lemma CodexStateIsInert(s: State, u: string, now: int, r: LogRecord, slot: Slot)
    ensures Inert(s, CodexState(s, u, now, r), slot) && CodexState(s, u, now, r).log == s.log
  {
    OutsideIsInert(s, CodexState(s, u, now, r), slot);
  }

  /** The row of a usage event is missing exactly when recording turns the request down. */
  predicate Recorded(e: Entry) { e.UsageEntry? && (e.ref.None? <==> Skipped(e.request)) }

  lemma HandleUsageIsAccounted(s: State, env: Env, u: string, ip: Option<string>, now: int, r: LogRecord, slot: Slot)
    returns (said: Option<Entry>)
    requires Proper(s)
    ensures var s' := HandleUsage(s, env, u, ip, now, r);
      Says(s.log, s'.log, said, u) && (said.Some? ==> Recorded(said.value) && said.value.user == u) &&
      Accounted(s, s', slot, said.Some? && said.value.ref.None?)
  {
    var name := EventName(r);
    said := None;
    if (name == "claude_code.api_request" || name == "api_request") && r.service == "claude-code" {
      said := ClaudeUsageIsAccounted(s, env, u, ip, r, slot);
    } else if name == "codex.sse_event" && IsCodex(r.service) {
      if IsStateEvent(r) {
        CodexStateIsInert(s, u, now, r, slot);
      } else {
        said := CodexUsageIsAccounted(s, env, u, ip, r, slot);
      }
    } else if (name == "codex.api_request" || name == "codex.websocket_request") && IsCodex(r.service) {
      CodexStateIsInert(s, u, now, r, slot);
    } else if IsMessageService(r.service) && name == r.service + ".message_completed" {
      said := MessageUsageIsAccounted(s, env, u, ip, r, slot);
    }
  }

  lemma ClaudeUsageIsAccounted(s: State, env: Env, u: string, ip: Option<string>, r: LogRecord, slot: Slot)
    returns (said: Option<Entry>)
    requires Proper(s)
    ensures var s' := ClaudeUsage(s, env, u, ip, r);
      Says(s.log, s'.log, said, u) && said.Some? && Recorded(said.value) && said.value.user == u &&
      Accounted(s, s', slot, said.value.ref.None?)
  {
    var session := OrEmpty(SessionOf(r));
    var q := ClaudeRequest(env, u, ip, r, PromptLengthFor(s, u, r, session));
    var ref, s1 := RowOf(env, s.log, u, q), ConsumePrompt(s, u, r, session);
    said := Some(UsageEntry(u, q, ref));
    PromptsAreInert(s, u, 0, r, session, slot);
    ClaudeRecordedIsAccounted(s1, u, q, ref, r.attrs.promptDotId, slot);
    ClaudeRecordedSays(s1, u, q, ref, r.attrs.promptDotId, slot);
  }

  lemma CodexUsageIsAccounted(s: State, env: Env, u: string, ip: Option<string>, r: LogRecord, slot: Slot)
    returns (said: Option<Entry>)
    requires Proper(s)
    ensures var s' := CodexUsage(s, env, u, ip, r);
      Says(s.log, s'.log, said, u) && (said.Some? ==> Recorded(said.value) && said.value.user == u) &&
      Accounted(s, s', slot, said.Some? && said.value.ref.None?)
  {
    said := None;
    if CompletesCodex(r) {
      var t := if Present(r.attrs.conversationId) then TurnAt(s, Scoped(u, r.attrs.conversationId.value)) else None;
      var q := CodexRequest(env, u, ip, r, t, PromptLengthFor(s, u, r, ""));
      var ref, s1 := RowOf(env, s.log, u, q), ConsumePrompt(s, u, r, "");
      said := Some(UsageEntry(u, q, ref));
      PromptsAreInert(s, u, 0, r, "", slot);
      CodexRecordedIsAccounted(s1, u, q, ref, r.attrs.conversationId, slot);
      CodexRecordedSays(s1, u, q, ref, r.attrs.conversationId, slot);
    }
  }

  lemma MessageUsageIsAccounted(s: State, env: Env, u: string, ip: Option<string>, r: LogRecord, slot: Slot)
    returns (said: Option<Entry>)
    requires Proper(s)
    ensures var s' := MessageUsage(s, env, u, ip, r);
      Says(s.log, s'.log, said, u) && said.Some? && Recorded(said.value) && said.value.user == u &&
      Accounted(s, s', slot, said.value.ref.None?)
  {
    var q := MessageRequest(env, u, ip, r);
    var ref := RowOf(env, s.log, u, q);
    said := Some(UsageEntry(u, q, ref));
    MessageRecordedIsAccounted(s, u, q, ref, r.attrs.messageId, r.service, slot);
    MessageRecordedSays(s, u, q, ref, r.attrs.messageId, r.service, slot);
  }

  lemma ToolSaysNoUsage(s: State, u: string, r: LogRecord)
    ensures Says(s.log, HandleTool(s, u, r).log, None, u)
  {
    var name := EventName(r);
    if name == "tool_decision" && r.service == "claude-code" {
      BufferedSaysNothing(s, ClaudeTools, Scoped(u, OrEmpty(r.attrs.promptDotId)), Decided(r, r.attrs.toolUseId, None));
    } else if name == "tool_result" && r.service == "claude-code" {
      FinishedSaysNoUsage(s, u, Scoped(u, OrEmpty(r.attrs.promptDotId)), OrEmpty(r.attrs.toolUseId), r.attrs.durationMs,
        SessionOf(r));
    } else if name == "codex.tool_decision" && IsCodex(r.service) {
      BufferedSaysNothing(s, CodexTools, Scoped(u, OrEmpty(r.attrs.conversationId)), Decided(r, r.attrs.callId, None));
    } else if name == "codex.tool_result" && IsCodex(r.service) {
      CodexResultSaysNoUsage(s, u, r);
    } else if IsMessageService(r.service) && name == r.service + ".tool_decision" {
      BufferedSaysNothing(s, MessageTools, Scoped(u, OrEmpty(r.attrs.messageId)),
        Decided(r, r.attrs.callId, r.attrs.durationMs));
    }
  }

  lemma BufferedSaysNothing(s: State, kind: Kind, key: string, w: Waiting)
    ensures Buffered(s, kind, key, w).log == s.log
  {
  }

  lemma CodexResultSaysNoUsage(s: State, u: string, r: LogRecord)
    ensures Says(s.log, CodexResult(s, u, r).log, None, u)
  {
  }

  lemma FinishedSaysNoUsage(s: State, u: string, key: string, id: string, d: Option<int>, session: Option<string>)
    ensures Says(s.log, Finished(s, u, key, id, d, session).log, None, u)
  {
  }

  predicate IsUsageEvent(r: LogRecord) {
    var name := EventName(r);
    ((name == "claude_code.api_request" || name == "api_request") && r.service == "claude-code") ||
    ((name == "codex.sse_event" || name == "codex.api_request" || name == "codex.websocket_request") &&
      IsCodex(r.service)) ||
    (IsMessageService(r.service) && name == r.service + ".message_completed")
  }

  /** No record is a tool event and a usage event at once. */
  lemma OneKindOfEvent(s: State, env: Env, u: string, ip: Option<string>, now: int, r: LogRecord)
    ensures IsUsageEvent(r) ==> HandleTool(s, u, r) == s
    ensures !IsUsageEvent(r) ==> HandleUsage(s, env, u, ip, now, r) == s
  {
    if IsMessageService(r.service) {
      assert |r.service + ".tool_decision"| != |r.service + ".message_completed"|;
    }
  }

  /** One event: a slot that it empties is recorded, exactly once, unless the event is a usage report that
      recording turned down; then nothing is recorded from it. Every other slot records nothing. */
  lemma EventIsAccounted(s: State, env: Env, u: string, ip: Option<string>, now: int, r: LogRecord, slot: Slot)
    returns (said: Option<Entry>)
    requires Proper(s)
    ensures var s' := Handle(s, env, u, ip, now, r);
      Says(s.log, s'.log, said, u) && (said.Some? ==> Recorded(said.value) && said.value.user == u) &&
      Accounted(s, s', slot, HasSkipped(s'.log, |s.log|))
  {
    said := None;
    if IsRetired(r.service) {
      SaidIsSkipped(s.log, s.log, said, u);
    } else {
      var s1 := NotePrompt(s, u, now, r);
      PromptsAreInert(s, u, now, r, "", slot);
      var s2 := HandleTool(s1, u, r);
      OneKindOfEvent(s1, env, u, ip, now, r);
      OneKindOfEvent(s2, env, u, ip, now, r);
      if IsUsageEvent(r) {
        said := HandleUsageIsAccounted(s1, env, u, ip, now, r, slot);
        var s3 := HandleUsage(s1, env, u, ip, now, r);
        SaidIsSkipped(s.log, s3.log, said, u);
        InertAround(s, s1, s3, s3, slot, HasSkipped(s3.log, |s.log|));
      } else {
        HandleToolIsAccounted(s1, u, r, slot);
        ToolSaysNoUsage(s1, u, r);
        SaidIsSkipped(s.log, s2.log, said, u);
        InertAround(s, s1, s2, s2, slot, false);
      }
    }
  }

  // ---------------------------------------------------------------- one step

  function AtIfFresh(b: Buffer, k: string, now: int): seq<Waiting> {
    if IsFreshList(At(b, k), now) then At(b, k) else []
  }

  lemma EvictIsProper(b: Buffer, now: int)
    requires ProperBuffer(b)
    ensures ProperBuffer(EvictBuffer(b, now))
    ensures forall k :: At(EvictBuffer(b, now), k) == AtIfFresh(b, k, now)
  {
  }

  /** A sweep records nothing, buffers nothing, and empties a slot exactly when the last call buffered under
      its key is more than ten minutes old. */
  lemma SweepIsAccounted(s: State, now: int, slot: Slot)
    requires Proper(s)
    ensures Proper(Evict(s, now)) && Evict(s, now).log == s.log
    ensures Waits(Evict(s, now), slot) <==> Waits(s, slot) && IsFreshList(At(BufferOf(s, slot.kind), slot.key), now)
  {
    EvictIsProper(s.claude, now);
    EvictIsProper(s.codex, now);
    EvictIsProper(s.message, now);
    EvictedBuffer(s, slot.kind, now);
    EvictIsProper(BufferOf(s, slot.kind), now);
  }

  lemma EvictedBuffer(s: State, kind: Kind, now: int)
    ensures BufferOf(Evict(s, now), kind) == EvictBuffer(BufferOf(s, kind), now)
  {
  }

  /** The fate read off the states is the truth about the records: a call is recorded by a step exactly when
      its fate says so; it is dropped only by its user's usage report that recording turned down, and evicted
      only when stale. */
  lemma FateIsTrue(s: State, env: Env, step: Step, slot: Slot)
    requires Proper(s)
    ensures Proper(After(s, env, step))
    ensures Recordings(After(s, env, step).log, slot) ==
            Recordings(s.log, slot) + (if FateIn(s, env, step, slot) == IsRecorded then 1 else 0)
    ensures FateIn(s, env, step, slot) == IsEvicted ==>
      step.Sweep? && !IsFreshList(At(BufferOf(s, slot.kind), slot.key), step.now)
    ensures FateIn(s, env, step, slot) == IsDropped ==>
      step.Event? && DroppedBy(After(s, env, step).log, |s.log|, step.user)
  {
    match step
    case Sweep(now) => SweepIsAccounted(s, now, slot);
    case Event(u, ip, now, r) =>
      var said := EventIsAccounted(s, env, u, ip, now, r, slot);
      var log := Handle(s, env, u, ip, now, r).log;
      SaidIsSkipped(s.log, log, said, u);
      if HasSkipped(log, |s.log|) { assert log[|s.log|] == said.value; }
  }

  /** The step's first record is a usage report of the user that was turned down for carrying no tokens. */
  predicate DroppedBy(log: Log, n: nat, user: string) {
    n < |log| && log[n].UsageEntry? && log[n].user == user && log[n].ref.None? && Skipped(log[n].request)
  }

  // ---------------------------------------------------------------- whole runs

  /** Conservation over any run: every call that was ever buffered was recorded, evicted or dropped, or is
      still waiting, and no call is counted twice; what was recorded is what the log holds. */
  lemma {:induction false} CallsAreConserved(env: Env, steps: seq<Step>, slot: Slot)
    ensures var s := AfterAll(EMPTY, env, steps);
      Proper(s) &&
      Recordings(s.log, slot) == Times(env, steps, slot, IsRecorded) &&
      Times(env, steps, slot, Joins) ==
        Times(env, steps, slot, IsRecorded) + Times(env, steps, slot, IsEvicted) +
        Times(env, steps, slot, IsDropped) + (if Waits(s, slot) then 1 else 0)
    decreases |steps|
  {
    if steps != [] {
      var rest, step := steps[..|steps| - 1], steps[|steps| - 1];
      CallsAreConserved(env, rest, slot);
      FateIsTrue(AfterAll(EMPTY, env, rest), env, step, slot);
    }
  }

  /** The steps of a run of posts. */
  function StepsOf(posts: seq<Post>, limit: nat): seq<Step> {
    if posts == [] then []
    else
      var p := posts[|posts| - 1];
      StepsOf(posts[..|posts| - 1], limit) + ([Sweep(p.now)] + EventsOf(p, Accepted(p.records, limit)))
  }

  function EventsOf(p: Post, rs: seq<LogRecord>): (steps: seq<Step>)
    ensures |steps| == |rs|
  {
    if rs == [] then [] else EventsOf(p, rs[..|rs| - 1]) + [Event(p.user, p.clientIp, p.now, rs[|rs| - 1])]
  }

  lemma {:induction false} AfterConcat(s: State, env: Env, a: seq<Step>, b: seq<Step>)
    ensures AfterAll(s, env, a + b) == AfterAll(AfterAll(s, env, a), env, b)
    decreases |b|
  {
    if b == [] {
      assert a + b == a;
    } else {
      assert (a + b)[..|a + b| - 1] == a + b[..|b| - 1];
      AfterConcat(s, env, a, b[..|b| - 1]);
    }
  }

  lemma {:induction false} EventsAreHandled(s: State, env: Env, p: Post, rs: seq<LogRecord>)
    ensures AfterAll(s, env, EventsOf(p, rs)) == HandleAll(s, env, p.user, p.clientIp, p.now, rs)
    decreases |rs|
  {
    if rs != [] {
      var rest, last := EventsOf(p, rs[..|rs| - 1]), Event(p.user, p.clientIp, p.now, rs[|rs| - 1]);
      EventsAreHandled(s, env, p, rs[..|rs| - 1]);
      assert (rest + [last])[..|rest|] == rest;
    }
  }

  /** A run of posts is the run of its steps, so conservation holds of every run of posts. */
  lemma {:induction false} RunIsItsSteps(env: Env, limit: nat, posts: seq<Post>)
    ensures Run(EMPTY, env, limit, posts) == AfterAll(EMPTY, env, StepsOf(posts, limit))
    decreases |posts|
  {
    if posts != [] {
      var rest, p := posts[..|posts| - 1], posts[|posts| - 1];
      var rs := Accepted(p.records, limit);
      RunIsItsSteps(env, limit, rest);
      var s := Run(EMPTY, env, limit, rest);
      AfterConcat(EMPTY, env, StepsOf(rest, limit), [Sweep(p.now)] + EventsOf(p, rs));
      AfterConcat(s, env, [Sweep(p.now)], EventsOf(p, rs));
      AfterOne(s, env, Sweep(p.now));
      EventsAreHandled(Evict(s, p.now), env, p, rs);
    }
  }

  lemma AfterOne(s: State, env: Env, step: Step)
    ensures AfterAll(s, env, [step]) == After(s, env, step)
  {
    assert [step][..0] == [];
  }

  // ---------------------------------------------------------------- ids

  /** Every recorded call carries the tool id scoped by the user it is recorded for. */
  predicate AllSound(log: Log) { forall k :: 0 <= k < |log| ==> log[k].UsageEntry? || Plain(log[k], log[k].user) }

  lemma {:induction false} RecordedIdsAreScoped(env: Env, steps: seq<Step>)
    ensures AllSound(AfterAll(EMPTY, env, steps).log)
    decreases |steps|
  {
    if steps != [] {
      var rest, step := steps[..|steps| - 1], steps[|steps| - 1];
      var s := AfterAll(EMPTY, env, rest);
      var slot := Slot(ClaudeTools, "", "");
      RecordedIdsAreScoped(env, rest);
      CallsAreConserved(env, rest, slot);
      if step.Event? {
        var said := EventIsAccounted(s, env, step.user, step.clientIp, step.now, step.record, slot);
        SaysIsSound(s.log, After(s, env, step).log, said, step.user);
      }
    }
  }

  lemma SaysIsSound(was: Log, now: Log, said: Option<Entry>, u: string)
    requires AllSound(was) && Says(was, now, said, u) && (said.Some? ==> said.value.UsageEntry?)
    ensures AllSound(now)
  {
    var n := |was| + (if said.Some? then 1 else 0);
    forall k | 0 <= k < |now| ensures now[k].UsageEntry? || Plain(now[k], now[k].user) {
      if k < |was| {
        assert now[k] == was[k];
      } else if k >= n {
        assert now[k] == now[n..][k - n] && Plain(now[n..][k - n], u);
      }
    }
  }

  /** Entries are only made for users that posted. */
  lemma {:induction false} LogUsers(env: Env, limit: nat, posts: seq<Post>)
    requires forall i :: 0 <= i < |posts| ==> IsUser(posts[i].user)
    ensures MadeForUsers(Run(EMPTY, env, limit, posts).log)
    decreases |posts|
  {
    RunIsItsSteps(env, limit, posts);
    StepUsers(posts, limit);
    LogUsersOfSteps(env, StepsOf(posts, limit));
  }

  predicate MadeForUsers(log: Log) { forall k :: 0 <= k < |log| ==> IsUser(log[k].user) }

  predicate StepsOfUsers(steps: seq<Step>) { forall k :: 0 <= k < |steps| ==> steps[k].Sweep? || IsUser(steps[k].user) }

  lemma {:induction false} StepUsers(posts: seq<Post>, limit: nat)
    requires forall i :: 0 <= i < |posts| ==> IsUser(posts[i].user)
    ensures StepsOfUsers(StepsOf(posts, limit))
    decreases |posts|
  {
    if posts != [] {
      StepUsers(posts[..|posts| - 1], limit);
      EventUsers(posts[|posts| - 1], Accepted(posts[|posts| - 1].records, limit));
    }
  }

  lemma {:induction false} EventUsers(p: Post, rs: seq<LogRecord>)
    requires IsUser(p.user)
    ensures StepsOfUsers(EventsOf(p, rs))
    decreases |rs|
  {
    if rs != [] { EventUsers(p, rs[..|rs| - 1]); }
  }

  lemma {:induction false} LogUsersOfSteps(env: Env, steps: seq<Step>)
    requires StepsOfUsers(steps)
    ensures MadeForUsers(AfterAll(EMPTY, env, steps).log)
    decreases |steps|
  {
    if steps != [] {
      var rest, step := steps[..|steps| - 1], steps[|steps| - 1];
      var s := AfterAll(EMPTY, env, rest);
      LogUsersOfSteps(env, rest);
      CallsAreConserved(env, rest, Slot(ClaudeTools, "", ""));
      if step.Event? {
        var said := EventIsAccounted(s, env, step.user, step.clientIp, step.now, step.record,
          Slot(ClaudeTools, "", ""));
        SaysForUser(s.log, After(s, env, step).log, said, step.user);
      }
    }
  }

  lemma SaysForUser(was: Log, now: Log, said: Option<Entry>, u: string)
    requires MadeForUsers(was) && IsUser(u) && Says(was, now, said, u) && (said.Some? ==> said.value.user == u)
    ensures MadeForUsers(now)
  {
    var n := |was| + (if said.Some? then 1 else 0);
    forall k | 0 <= k < |now| ensures IsUser(now[k].user) {
      if k < |was| {
        assert now[k] == was[k];
      } else if k >= n {
        assert now[k] == now[n..][k - n] && Plain(now[n..][k - n], u);
      }
    }
  }
}
