/** Reading usage and tool calls out of a relayed stream while it arrives in chunks (the loop of `_relay` and
    `StreamToolCallAccumulator` in src/proxy.py). Chunks are cut between characters. */
module Streams {
  import opened Basics

  // ---------------------------------------------------------------- what a payload contributes

  /** A tool call under construction. */
  datatype Call = Call(id: string, name: string)

  /** A piece of a tool call: deltas append, the other events overwrite what they carry. */
  datatype Fragment = Fragment(index: int, appends: bool, id: string, name: string)

  /** A parsed payload: its usage fields, its fragments, and whether handling it raised an error after them. */
  datatype Payload = Unreadable | Payload(usage: map<string, int>, fragments: seq<Fragment>, broken: bool)

  /** What the relay has gathered; `seen` are the payload texts in the order they were handled. */
  datatype Gathered = Gathered(usage: map<string, int>, calls: map<int, Call>, seen: seq<string>)

  const NOTHING_YET := Gathered(map[], map[], [])

  function Extended(c: Call, f: Fragment): Call {
    if f.appends then Call(c.id + f.id, c.name + f.name)
    else Call(if f.id != "" then f.id else c.id, if f.name != "" then f.name else c.name)
  }

  function Accumulated(calls: map<int, Call>, fs: seq<Fragment>): map<int, Call> {
    if fs == [] then calls
    else
      var f := fs[|fs| - 1];
      var before := Accumulated(calls, fs[..|fs| - 1]);
      before[f.index := Extended(if f.index in before then before[f.index] else Call("", ""), f)]
  }

  // ---------------------------------------------------------------- lines

  predicate IsSpace(c: char) { c == ' ' || '\t' <= c <= '\r' || '\U{1C}' <= c <= '\U{1F}' }

  function Strip(s: string): string {
    if s == [] then s
    else if IsSpace(s[0]) then Strip(s[1..])
    else if IsSpace(s[|s| - 1]) then Strip(s[..|s| - 1])
    else s
  }

  predicate Contains(s: string, t: string) { exists i :: 0 <= i <= |s| && t <= s[i..] }

  predicate IsData(line: string) { "data:" <= Strip(line) && !Contains(Strip(line), "[DONE]") }

  function DataOf(line: string): string
    requires IsData(line)
  {
    Strip(Strip(line)[5..])
  }

  type Parser = string -> Payload

  /** Handling the line raises an error. */
  predicate Fails(parse: Parser, line: string) {
    IsData(line) && var p := parse(DataOf(line)); p.Unreadable? || p.broken
  }

  /** The effect of one line, including what it did before an error. */
  function Handled(parse: Parser, g: Gathered, line: string): Gathered {
    if !IsData(line) then g
    else
      var text := DataOf(line);
      match parse(text)
      case Unreadable => g.(seen := g.seen + [text])
      case Payload(usage, fragments, _) => Gathered(g.usage + usage, Accumulated(g.calls, fragments), g.seen + [text])
  }

  /** What a readable data line adds: its usage fields, which replace earlier ones of the same name, and its pieces of
      tool calls. Other lines add nothing. */
  lemma HandledSays(parse: Parser, g: Gathered, line: string, field: string)
    ensures !IsData(line) || parse(DataOf(line)).Unreadable? ==>
      Handled(parse, g, line).usage == g.usage && Handled(parse, g, line).calls == g.calls
    ensures IsData(line) && parse(DataOf(line)).Payload? ==>
      var p, after := parse(DataOf(line)), Handled(parse, g, line);
      after.calls == Accumulated(g.calls, p.fragments) &&
      (field in after.usage <==> field in g.usage || field in p.usage) &&
      (field in p.usage ==> after.usage[field] == p.usage[field]) &&
      (field in g.usage && field !in p.usage ==> after.usage[field] == g.usage[field])
  {
  }

  /** A text without the white space at its ends. */
  predicate IsTrimmed(s: string, t: string, i: nat) {
    i + |t| <= |s| && s[i..i + |t|] == t && (forall k :: 0 <= k < i ==> IsSpace(s[k])) &&
    (forall k :: i + |t| <= k < |s| ==> IsSpace(s[k])) && (t != "" ==> !IsSpace(t[0]) && !IsSpace(t[|t| - 1]))
  }

  lemma {:induction false} StripTrims(s: string) returns (i: nat)
    ensures IsTrimmed(s, Strip(s), i)
    decreases |s|
  {
    if s == [] {
      i := 0;
    } else if IsSpace(s[0]) {
      i := StripTrims(s[1..]);
      var t := Strip(s);
      assert s[1..][i..i + |t|] == s[i + 1..i + 1 + |t|];
      assert forall k :: 0 < k < |s| ==> s[k] == s[1..][k - 1];
      i := i + 1;
    } else if IsSpace(s[|s| - 1]) {
      i := StripTrims(s[..|s| - 1]);
      assert s[..|s| - 1][i..i + |Strip(s)|] == s[i..i + |Strip(s)|];
    } else {
      i := 0;
      assert s[0..|s|] == s;
    }
  }

  lemma {:induction false} TrimmedIsStripped(s: string, t: string, i: nat)
    requires IsTrimmed(s, t, i) && t != ""
    ensures Strip(s) == t
    decreases |s|
  {
    if i > 0 {
      assert s[1..][i - 1..i - 1 + |t|] == s[i..i + |t|];
      assert forall k :: 0 <= k < |s| - 1 ==> s[1..][k] == s[k + 1];
      TrimmedIsStripped(s[1..], t, i - 1);
    } else {
      assert s[0] == t[0];
      if |t| < |s| {
        assert s[..|s| - 1][i..i + |t|] == s[i..i + |t|];
        TrimmedIsStripped(s[..|s| - 1], t, i);
      } else {
        assert s == t;
      }
    }
  }

  /** A line that says "data:" and then a payload is a data line with that payload, whatever white space is around
      them; one that is done is not. */
  lemma DataLinesCarryPayloads(line: string, gap: string, payload: string, i: nat)
    requires payload != "" && !IsSpace(payload[0]) && !IsSpace(payload[|payload| - 1])
    requires (forall k :: 0 <= k < |gap| ==> IsSpace(gap[k])) && IsTrimmed(line, "data:" + gap + payload, i)
    ensures IsData(line) <==> !Contains("data:" + gap + payload, "[DONE]")
    ensures IsData(line) ==> DataOf(line) == payload
  {
    var t := "data:" + gap + payload;
    TrimmedIsStripped(line, t, i);
    assert t[5..] == gap + payload;
    assert IsTrimmed(gap + payload, payload, |gap|);
    TrimmedIsStripped(gap + payload, payload, |gap|);
  }

  /** White space is what the language strips among the first 128 characters. */
  lemma SpacesAre(c: char)
    ensures IsSpace(c) <==> 9 <= c as int <= 13 || 28 <= c as int <= 32
  {
  }

  function HandledAll(parse: Parser, lines: seq<string>): Gathered {
    if lines == [] then NOTHING_YET
    else Handled(parse, HandledAll(parse, lines[..|lines| - 1]), lines[|lines| - 1])
  }

  /** The position of the first line end, or the length. */
  function LineEnd(s: string): (n: nat)
    ensures n <= |s| && '\n' !in s[..n] && (n < |s| ==> s[n] == '\n')
  {
    if s == [] || s[0] == '\n' then 0
    else
      var n := LineEnd(s[1..]);
      assert s[..n + 1] == [s[0]] + s[1..][..n];
      n + 1
  }

  /** The complete lines of a text. */
  function Lines(s: string): seq<string>
    decreases |s|
  {
    var n := LineEnd(s);
    if n == |s| then [] else [s[..n]] + Lines(s[n + 1..])
  }

  /** The text after its first `k` complete lines. */
  function After(s: string, k: nat): string
    requires k <= |Lines(s)|
    decreases k
  {
    if k == 0 then s else After(s[LineEnd(s) + 1..], k - 1)
  }

  // ---------------------------------------------------------------- laws of lines

  lemma LineEndIs(s: string, n: nat)
    requires n < |s| && s[n] == '\n' && '\n' !in s[..n]
    ensures LineEnd(s) == n
  {
    var m := LineEnd(s);
    assert forall k :: 0 <= k < n ==> s[k] in s[..n];
    assert forall k :: 0 <= k < m ==> s[k] in s[..m];
  }

  /** Appending text keeps the complete lines and their remainders. */
  lemma {:induction false} LinesExtend(s: string, t: string)
    ensures Lines(s) <= Lines(s + t)
    decreases |s|
  {
    var n := LineEnd(s);
    if n < |s| {
      assert (s + t)[..n] == s[..n];
      LineEndIs(s + t, n);
      assert (s + t)[n + 1..] == s[n + 1..] + t;
      LinesExtend(s[n + 1..], t);
    }
  }

  lemma {:induction false} AfterExtends(s: string, t: string, k: nat)
    requires k <= |Lines(s)|
    ensures k <= |Lines(s + t)| && After(s + t, k) == After(s, k) + t
    decreases k
  {
    LinesExtend(s, t);
    if k > 0 {
      var n := LineEnd(s);
      assert (s + t)[..n] == s[..n];
      LineEndIs(s + t, n);
      assert (s + t)[n + 1..] == s[n + 1..] + t;
      AfterExtends(s[n + 1..], t, k - 1);
    }
  }

  /** The next line starts where the remainder does. */
  lemma {:induction false} AfterNext(s: string, k: nat)
    requires k <= |Lines(s)|
    ensures var rest := After(s, k); var n := LineEnd(rest);
      (n < |rest| <==> k < |Lines(s)|) &&
      (k < |Lines(s)| ==> Lines(s)[k] == rest[..n] && After(s, k + 1) == rest[n + 1..])
    decreases k
  {
    if k > 0 {
      AfterNext(s[LineEnd(s) + 1..], k - 1);
    } else if |Lines(s)| > 0 {
      assert After(s, 1) == After(s[LineEnd(s) + 1..], 0);
    }
  }

  // ---------------------------------------------------------------- the reader

  /** The reader's variables. */
  datatype Reader = Reader(buffer: string, gathered: Gathered)

  /** The inner loop: handle complete lines until none is left or one fails; a failing line is consumed. */
  function Drained(parse: Parser, r: Reader): Reader
    decreases |r.buffer|
  {
    var n := LineEnd(r.buffer);
    if n == |r.buffer| then r
    else
      var line := r.buffer[..n];
      var next := Reader(r.buffer[n + 1..], Handled(parse, r.gathered, line));
      if Fails(parse, line) then next else Drained(parse, next)
  }

  function Fed(parse: Parser, r: Reader, chunk: string): Reader {
    Drained(parse, r.(buffer := r.buffer + chunk))
  }

  /** Reading a stream chunk by chunk. */
  function ReadAll(parse: Parser, chunks: seq<string>): Reader {
    if chunks == [] then Reader("", NOTHING_YET)
    else Fed(parse, ReadAll(parse, chunks[..|chunks| - 1]), chunks[|chunks| - 1])
  }

  function Whole(chunks: seq<string>): string {
    if chunks == [] then "" else Whole(chunks[..|chunks| - 1]) + chunks[|chunks| - 1]
  }

  /** The code's loops. */
  method Relay(parse: Parser, chunks: seq<string>) returns (gathered: Gathered)
    ensures gathered == ReadAll(parse, chunks).gathered
  {
    var buffer := "";
    gathered := NOTHING_YET;
    for k := 0 to |chunks|
      invariant Reader(buffer, gathered) == ReadAll(parse, chunks[..k])
    {
      assert chunks[..k + 1][..k] == chunks[..k];
      buffer := buffer + chunks[k];
      ghost var start := Reader(buffer, gathered);
      while '\n' in buffer
        invariant Drained(parse, Reader(buffer, gathered)) == Drained(parse, start)
        decreases |buffer|
      {
        var n := LineEnd(buffer);
        assert n < |buffer|;
        var line := buffer[..n];
        buffer := buffer[n + 1..];
        gathered := Handled(parse, gathered, line);
        if Fails(parse, line) { break; }
      }
      assert Reader(buffer, gathered) == Drained(parse, start);
    }
    assert chunks[..|chunks|] == chunks;
  }

  // ---------------------------------------------------------------- independence of the cutting

  /** The reader has handled the first `k` lines of the text; it stops short only right behind a failing line. */
  predicate CaughtUp(parse: Parser, text: string, r: Reader, k: nat) {
    k <= |Lines(text)| && r.buffer == After(text, k) && r.gathered == HandledAll(parse, Lines(text)[..k]) &&
    (k < |Lines(text)| ==> k > 0 && Fails(parse, Lines(text)[k - 1]))
  }

  /** Like `CaughtUp`, in the middle of a chunk. */
  predicate OnTheWay(parse: Parser, text: string, r: Reader, k: nat) {
    k <= |Lines(text)| && r.buffer == After(text, k) && r.gathered == HandledAll(parse, Lines(text)[..k])
  }

  /** One turn of the inner loop. */
  function Turned(parse: Parser, r: Reader): Reader
    requires LineEnd(r.buffer) < |r.buffer|
  {
    Reader(r.buffer[LineEnd(r.buffer) + 1..], Handled(parse, r.gathered, r.buffer[..LineEnd(r.buffer)]))
  }

  lemma DrainedStep(parse: Parser, r: Reader)
    ensures LineEnd(r.buffer) == |r.buffer| ==> Drained(parse, r) == r
    ensures LineEnd(r.buffer) < |r.buffer| && Fails(parse, r.buffer[..LineEnd(r.buffer)]) ==>
      Drained(parse, r) == Turned(parse, r)
    ensures LineEnd(r.buffer) < |r.buffer| && !Fails(parse, r.buffer[..LineEnd(r.buffer)]) ==>
      Drained(parse, r) == Drained(parse, Turned(parse, r))
  {
  }

  lemma TurnIsOnTheWay(parse: Parser, text: string, r: Reader, k: nat)
    requires OnTheWay(parse, text, r, k)
    ensures LineEnd(r.buffer) < |r.buffer| <==> k < |Lines(text)|
    ensures k < |Lines(text)| ==>
      r.buffer[..LineEnd(r.buffer)] == Lines(text)[k] && OnTheWay(parse, text, Turned(parse, r), k + 1)
  {
    AfterNext(text, k);
    if k < |Lines(text)| { HandledNext(parse, Lines(text), k); }
  }

  lemma {:induction false} DrainCatchesUp(parse: Parser, text: string, r: Reader, k: nat) returns (k': nat)
    requires OnTheWay(parse, text, r, k)
    ensures k <= k' && CaughtUp(parse, text, Drained(parse, r), k')
    decreases |Lines(text)| - k
  {
    TurnIsOnTheWay(parse, text, r, k);
    DrainedStep(parse, r);
    if k == |Lines(text)| {
      k' := k;
    } else if Fails(parse, Lines(text)[k]) {
      k' := k + 1;
    } else {
      k' := DrainCatchesUp(parse, text, Turned(parse, r), k + 1);
    }
  }

  lemma HandledNext(parse: Parser, lines: seq<string>, k: nat)
    requires k < |lines|
    ensures HandledAll(parse, lines[..k + 1]) == Handled(parse, HandledAll(parse, lines[..k]), lines[k])
  {
    assert lines[..k + 1][..k] == lines[..k];
  }

  /** After any chunks the reader has handled a first part of the lines, from which only lines behind a
      failing one can be missing. */
  lemma {:induction false} ReaderCatchesUp(parse: Parser, chunks: seq<string>) returns (k: nat)
    ensures CaughtUp(parse, Whole(chunks), ReadAll(parse, chunks), k)
    decreases |chunks|
  {
    if chunks == [] {
      k := 0;
    } else {
      var front, chunk := chunks[..|chunks| - 1], chunks[|chunks| - 1];
      var r := ReadAll(parse, front);
      var k0 := ReaderCatchesUp(parse, front);
      LinesExtend(Whole(front), chunk);
      AfterExtends(Whole(front), chunk, k0);
      assert Lines(Whole(chunks))[..k0] == Lines(Whole(front))[..k0];
      k := DrainCatchesUp(parse, Whole(chunks), r.(buffer := r.buffer + chunk), k0);
    }
  }

  /** When every data line can be handled, the buffered reader equals splitting the whole stream at its line
      ends, however the chunks were cut. */
  lemma CuttingDoesNotMatter(parse: Parser, chunks: seq<string>)
    requires forall k :: 0 <= k < |Lines(Whole(chunks))| ==> !Fails(parse, Lines(Whole(chunks))[k])
    ensures ReadAll(parse, chunks).gathered == HandledAll(parse, Lines(Whole(chunks)))
    ensures ReadAll(parse, chunks).buffer == After(Whole(chunks), |Lines(Whole(chunks))|)
  {
    var k := ReaderCatchesUp(parse, chunks);
    assert Lines(Whole(chunks))[..k] == Lines(Whole(chunks));
  }

  /** No data line comes after one that fails. */
  predicate NothingAfterFailure(parse: Parser, lines: seq<string>) {
    forall j, k :: 0 <= j < k < |lines| && Fails(parse, lines[j]) ==> !IsData(lines[k])
  }

  /** A failing line costs the lines behind it in the same chunk, unless another chunk follows. So every cutting of a
      stream gets all its data lines handled exactly when no data line follows a failing one. */
  lemma HandlingDependsOnCuttingIff(parse: Parser, text: string)
    ensures HandledForEveryCutting(parse, text) <==> NothingAfterFailure(parse, Lines(text))
  {
    if NothingAfterFailure(parse, Lines(text)) {
      forall chunks | Whole(chunks) == text ensures ReadAll(parse, chunks).gathered == HandledAll(parse, Lines(text)) {
        QuietIsEnough(parse, chunks);
      }
    } else {
      SomethingIsLost(parse, text);
    }
  }

  ghost predicate HandledForEveryCutting(parse: Parser, text: string) {
    forall chunks :: Whole(chunks) == text ==> ReadAll(parse, chunks).gathered == HandledAll(parse, Lines(text))
  }

  lemma QuietIsEnough(parse: Parser, chunks: seq<string>)
    requires NothingAfterFailure(parse, Lines(Whole(chunks)))
    ensures ReadAll(parse, chunks).gathered == HandledAll(parse, Lines(Whole(chunks)))
  {
    var lines := Lines(Whole(chunks));
    var k := ReaderCatchesUp(parse, chunks);
    if k < |lines| {
      assert Fails(parse, lines[k - 1]);
      QuietTail(parse, lines, k);
    } else {
      assert lines[..k] == lines;
    }
  }

  lemma SomethingIsLost(parse: Parser, text: string)
    requires !NothingAfterFailure(parse, Lines(text))
    ensures !HandledForEveryCutting(parse, text)
  {
    var lines := Lines(text);
    var j, k :| 0 <= j < k < |lines| && Fails(parse, lines[j]) && IsData(lines[k]);
    StopsBehind(parse, text, j);
    SeenCounts(parse, lines[..j + 1]);
    SeenCounts(parse, lines);
    MoreData(lines, j + 1, k);
    var chunks := LineChunks(lines, j) + [After(text, j)];
    assert Whole(chunks) == text && ReadAll(parse, chunks).gathered != HandledAll(parse, lines);
  }

  lemma {:induction false} QuietTail(parse: Parser, lines: seq<string>, k: nat)
    requires k <= |lines| && forall i :: k <= i < |lines| ==> !IsData(lines[i])
    ensures HandledAll(parse, lines[..k]) == HandledAll(parse, lines)
    decreases |lines|
  {
    if k == |lines| {
      assert lines[..k] == lines;
    } else {
      QuietTail(parse, lines[..|lines| - 1], k);
      assert lines[..|lines| - 1][..k] == lines[..k];
    }
  }

  function DataCount(lines: seq<string>): nat {
    if lines == [] then 0 else DataCount(lines[..|lines| - 1]) + (if IsData(lines[|lines| - 1]) then 1 else 0)
  }

  lemma {:induction false} SeenCounts(parse: Parser, lines: seq<string>)
    ensures |HandledAll(parse, lines).seen| == DataCount(lines)
    decreases |lines|
  {
    if lines != [] { SeenCounts(parse, lines[..|lines| - 1]); }
  }

  lemma {:induction false} MoreData(lines: seq<string>, n: nat, k: nat)
    requires n <= k < |lines| && IsData(lines[k])
    ensures DataCount(lines[..n]) < DataCount(lines)
    decreases |lines|
  {
    var front := lines[..|lines| - 1];
    if k < |front| {
      MoreData(front, n, k);
      assert front[..n] == lines[..n];
    } else {
      FewerData(front, n);
      assert front[..n] == lines[..n];
    }
  }

  lemma {:induction false} FewerData(lines: seq<string>, n: nat)
    requires n <= |lines|
    ensures DataCount(lines[..n]) <= DataCount(lines)
    decreases |lines|
  {
    if n == |lines| {
      assert lines[..n] == lines;
    } else {
      FewerData(lines[..|lines| - 1], n);
      assert lines[..|lines| - 1][..n] == lines[..n];
    }
  }

  // ---------------------------------------------------------------- what the relay records

  /** `get_tool_calls`: the calls that have an id, in the order of their indices. */
  function Finished(calls: map<int, Call>): seq<Call>
    decreases |calls|
  {
    if calls == map[] then []
    else
      var least := LeastOf(calls.Keys);
      (if calls[least].id != "" then [calls[least]] else []) + Finished(calls - {least})
  }

  /** The merged usage fields and the finished tool calls, which are all that is handed to the recorder. */
  predicate SameResult(a: Gathered, b: Gathered) { a.usage == b.usage && Finished(a.calls) == Finished(b.calls) }

  lemma LineHasNoEnd(text: string, k: nat)
    requires k < |Lines(text)|
    ensures '\n' !in Lines(text)[k]
    ensures k <= |Lines(text)| && After(text, k) == Lines(text)[k] + "\n" + After(text, k + 1)
  {
    AfterNext(text, k);
    var rest := After(text, k);
    var n := LineEnd(rest);
    assert rest == rest[..n] + [rest[n]] + rest[n + 1..];
  }

  /** The first `n` lines, each as a chunk of its own. */
  function LineChunks(lines: seq<string>, n: nat): (r: seq<string>)
    requires n <= |lines|
    ensures |r| == n
  {
    if n == 0 then [] else LineChunks(lines, n - 1) + [lines[n - 1] + "\n"]
  }

  /** A chunk that is one line is handled whole, whether the line fails or not. */
  lemma OneLineFed(parse: Parser, g: Gathered, line: string)
    requires '\n' !in line
    ensures Fed(parse, Reader("", g), line + "\n") == Reader("", Handled(parse, g, line))
  {
    var buffer := line + "\n";
    assert "" + buffer == buffer && buffer[..|line|] == line && buffer[|line| + 1..] == "";
    LineEndIs(buffer, |line|);
    var r, next := Reader(buffer, g), Reader("", Handled(parse, g, line));
    assert Drained(parse, next) == next;
    assert Drained(parse, r) == if Fails(parse, line) then next else Drained(parse, next);
  }

  lemma {:induction false} ChunksAreText(text: string, n: nat)
    requires n <= |Lines(text)|
    ensures Whole(LineChunks(Lines(text), n)) + After(text, n) == text
    decreases n
  {
    if n > 0 {
      var front, chunk := LineChunks(Lines(text), n - 1), Lines(text)[n - 1] + "\n";
      ChunksAreText(text, n - 1);
      LineHasNoEnd(text, n - 1);
      WholeOneMore(front, chunk);
      Regroup(Whole(front), chunk, After(text, n));
    }
  }

  lemma Regroup(a: string, b: string, c: string)
    ensures a + b + c == a + (b + c)
  {
  }

  lemma WholeOneMore(chunks: seq<string>, chunk: string)
    ensures Whole(chunks + [chunk]) == Whole(chunks) + chunk
  {
    assert (chunks + [chunk])[..|chunks|] == chunks;
  }

  lemma ReadOneMore(parse: Parser, chunks: seq<string>, chunk: string)
    ensures ReadAll(parse, chunks + [chunk]) == Fed(parse, ReadAll(parse, chunks), chunk)
  {
    assert (chunks + [chunk])[..|chunks|] == chunks;
  }

  lemma {:induction false} LineByLine(parse: Parser, lines: seq<string>, n: nat)
    requires n <= |lines| && forall k :: 0 <= k < n ==> '\n' !in lines[k]
    ensures ReadAll(parse, LineChunks(lines, n)) == Reader("", HandledAll(parse, lines[..n]))
    decreases n
  {
    if n > 0 {
      LineByLine(parse, lines, n - 1);
      ReadOneMore(parse, LineChunks(lines, n - 1), lines[n - 1] + "\n");
      OneLineFed(parse, HandledAll(parse, lines[..n - 1]), lines[n - 1]);
      HandledNext(parse, lines, n - 1);
    }
  }

  /** Line by line up to a failing line, then the rest at once: nothing behind the failing line is handled. */
  lemma StopsBehind(parse: Parser, text: string, j: nat)
    requires j < |Lines(text)| && Fails(parse, Lines(text)[j])
    ensures var chunks := LineChunks(Lines(text), j) + [After(text, j)];
      Whole(chunks) == text && ReadAll(parse, chunks).gathered == HandledAll(parse, Lines(text)[..j + 1])
  {
    var rest := After(text, j);
    var chunks := LineChunks(Lines(text), j) + [rest];
    forall k | 0 <= k < j ensures '\n' !in Lines(text)[k] { LineHasNoEnd(text, k); }
    LineByLine(parse, Lines(text), j);
    ChunksAreText(text, j);
    ReadOneMore(parse, LineChunks(Lines(text), j), rest);
    WholeOneMore(LineChunks(Lines(text), j), rest);
    AfterNext(text, j);
    HandledNext(parse, Lines(text), j);
    assert "" + rest == rest;
  }

  ghost predicate SameForEveryCutting(parse: Parser, text: string) {
    forall chunks :: Whole(chunks) == text ==>
      SameResult(ReadAll(parse, chunks).gathered, HandledAll(parse, Lines(text)))
  }

  /** What comes behind a failing line contributes nothing: the lines up to it give the result of all lines. */
  predicate NothingCountsBehindFailure(parse: Parser, lines: seq<string>) {
    forall j :: 0 <= j < |lines| && Fails(parse, lines[j]) ==>
      SameResult(HandledAll(parse, lines[..j + 1]), HandledAll(parse, lines))
  }

  /** The recorded usage and tool calls are the same for every cutting of a stream exactly when, for every failing
      line, what comes behind it contributes nothing. */
  lemma CuttingMattersIff(parse: Parser, text: string)
    ensures SameForEveryCutting(parse, text) <==> NothingCountsBehindFailure(parse, Lines(text))
  {
    var lines := Lines(text);
    if SameForEveryCutting(parse, text) {
      forall j | 0 <= j < |lines| && Fails(parse, lines[j])
        ensures SameResult(HandledAll(parse, lines[..j + 1]), HandledAll(parse, lines))
      {
        StopsBehind(parse, text, j);
        var chunks := LineChunks(Lines(text), j) + [After(text, j)];
        assert Whole(chunks) == text;
      }
    }
    if NothingCountsBehindFailure(parse, lines) {
      forall chunks | Whole(chunks) == text
        ensures SameResult(ReadAll(parse, chunks).gathered, HandledAll(parse, lines))
      {
        NothingBehindIsEnough(parse, chunks);
      }
    }
  }

  lemma NothingBehindIsEnough(parse: Parser, chunks: seq<string>)
    requires NothingCountsBehindFailure(parse, Lines(Whole(chunks)))
    ensures SameResult(ReadAll(parse, chunks).gathered, HandledAll(parse, Lines(Whole(chunks))))
  {
    var k := ReaderCatchesUp(parse, chunks);
    var lines := Lines(Whole(chunks));
    if k < |lines| {
      assert Fails(parse, lines[k - 1]) && lines[..k - 1 + 1] == lines[..k];
    } else {
      assert lines[..k] == lines;
    }
  }

  /** A payload `y` carries usage, everything else cannot be parsed. */
  function OnlyY(text: string): Payload {
    if text == "y" then Payload(map["total_tokens" := 7], [], false) else Unreadable
  }

  lemma OnlyYLines()
    ensures Fails(OnlyY, "data:x") && !Fails(OnlyY, "data:y")
    ensures forall g :: Handled(OnlyY, g, "data:x").usage == g.usage
    ensures forall g :: Handled(OnlyY, g, "data:y").usage == g.usage + map["total_tokens" := 7]
    ensures '\n' !in "data:x" && '\n' !in "data:y"
  {
    DataLine('x');
    DataLine('y');
    assert "data:x" == "data:" + ['x'] && "data:y" == "data:" + ['y'];
    assert ['x'] != "y" && ['y'] == "y";
  }

  lemma FirstLine(line: string, rest: string)
    requires '\n' !in line
    ensures var buffer := line + "\n" + rest;
      LineEnd(buffer) == |line| && buffer[..|line|] == line && buffer[|line| + 1..] == rest
  {
    var buffer := line + "\n" + rest;
    assert buffer[..|line|] == line && buffer[|line|] == '\n';
    LineEndIs(buffer, |line|);
  }

  /** A chunk whose first line fails: the rest of it is not handled. */
  lemma FailingLineFed(parse: Parser, g: Gathered, line: string, rest: string)
    requires '\n' !in line && Fails(parse, line)
    ensures Fed(parse, Reader("", g), line + "\n" + rest) == Reader(rest, Handled(parse, g, line))
  {
    FirstLine(line, rest);
    assert "" + (line + "\n" + rest) == line + "\n" + rest;
    DrainedStep(parse, Reader(line + "\n" + rest, g));
  }

  /** Two lines, the first failing: as one chunk the second is not handled, as two it is. */
  lemma OneChunkOrTwo(parse: Parser, x: string, y: string)
    requires '\n' !in x && '\n' !in y && Fails(parse, x)
    ensures ReadAll(parse, [x + "\n" + (y + "\n")]).gathered == Handled(parse, NOTHING_YET, x)
    ensures ReadAll(parse, [x + "\n", y + "\n"]).gathered == Handled(parse, Handled(parse, NOTHING_YET, x), y)
  {
    var first, second := x + "\n", y + "\n";
    ReadOneMore(parse, [], first + second);
    FailingLineFed(parse, NOTHING_YET, x, second);
    ReadOneMore(parse, [], first);
    OneLineFed(parse, NOTHING_YET, x);
    ReadOneMore(parse, [first], second);
    OneLineFed(parse, Handled(parse, NOTHING_YET, x), y);
    assert [] + [first + second] == [first + second] && [] + [first] == [first] &&
      [first] + [second] == [first, second];
  }

  /** A stream whose first data line cannot be parsed and whose second carries usage: as one chunk the usage is lost,
      in two it is recorded. */
  lemma LostLine()
    ensures ReadAll(OnlyY, ["data:x" + "\n" + ("data:y" + "\n")]).gathered.usage == map[]
    ensures ReadAll(OnlyY, ["data:x" + "\n", "data:y" + "\n"]).gathered.usage == map["total_tokens" := 7]
  {
    OnlyYLines();
    OneChunkOrTwo(OnlyY, "data:x", "data:y");
  }

  /** A data line with a one-letter payload. */
  lemma DataLine(c: char)
    requires !IsSpace(c) && c != ']'
    ensures var line := "data:" + [c]; IsData(line) && DataOf(line) == [c] && '\n' !in line
  {
    var line := "data:" + [c];
    assert Strip(line) == line;
    assert line[5..] == [c] && Strip([c]) == [c];
    forall i | 0 <= i <= |line| ensures !("[DONE]" <= line[i..]) {
      if i == 0 { assert line[0] == 'd'; }
    }
  }

  // ---------------------------------------------------------------- the finished tool calls

  lemma NextFinished(result: seq<Call>, todo: map<int, Call>, least: int)
    requires todo != map[] && least == LeastOf(todo.Keys)
    ensures result + Finished(todo) ==
            (if todo[least].id != "" then result + [todo[least]] else result) + Finished(todo - {least})
  {
    if todo[least].id == "" { assert [] + Finished(todo - {least}) == Finished(todo - {least}); }
  }

  /** `order` are, ascending, the indices below all of `todo` whose calls have an id, and `result` their calls. */
  ghost predicate IsListing(calls: map<int, Call>, todo: map<int, Call>, result: seq<Call>, order: seq<int>) {
    |order| == |result| &&
    (forall k :: 0 <= k < |order| ==> order[k] in calls && result[k] == calls[order[k]]) &&
    (forall i, j :: 0 <= i < j < |order| ==> order[i] < order[j]) &&
    (forall i :: i in order <==> i in calls && i !in todo && calls[i].id != "") &&
    (forall i, j :: 0 <= i < |order| && j in todo ==> order[i] < j)
  }

  lemma ListsOneMore(calls: map<int, Call>, todo: map<int, Call>, result: seq<Call>, order: seq<int>, least: int)
    requires IsListing(calls, todo, result, order) && least in todo && least in calls
    requires forall j :: j in todo ==> least <= j
    ensures calls[least].id != "" ==> IsListing(calls, todo - {least}, result + [calls[least]], order + [least])
    ensures calls[least].id == "" ==> IsListing(calls, todo - {least}, result, order)
  {
    forall i ensures i in order + [least] <==> i in order || i == least {}
  }

  /** `get_tool_calls`; `order` are the indices of the calls it lists. */
  method ToolCallsOf(calls: map<int, Call>) returns (result: seq<Call>, ghost order: seq<int>)
    ensures result == Finished(calls) && IsListing(calls, map[], result, order)
  {
    result, order := [], [];
    var todo := calls;
    while todo != map[]
      invariant todo.Keys <= calls.Keys && forall i :: i in todo ==> todo[i] == calls[i]
      invariant result + Finished(todo) == Finished(calls)
      invariant IsListing(calls, todo, result, order)
      decreases |todo|
    {
      var least := LeastOf(todo.Keys);
      NextFinished(result, todo, least);
      ListsOneMore(calls, todo, result, order, least);
      if calls[least].id != "" { result, order := result + [calls[least]], order + [least]; }
      todo := todo - {least};
    }
  }

  /** `StreamToolCallAccumulator`: the calls by index, extended piece by piece. */
  class ToolCallAccumulator {
    var calls: map<int, Call>

    constructor ()
      ensures calls == map[]
    {
      calls := map[];
    }

    method Accumulate(fragments: seq<Fragment>)
      modifies this
      ensures calls == Accumulated(old(calls), fragments)
    {
      for n := 0 to |fragments|
        invariant calls == Accumulated(old(calls), fragments[..n])
      {
        assert fragments[..n + 1][..n] == fragments[..n];
        var f := fragments[n];
        if f.index !in calls { calls := calls[f.index := Call("", "")]; }
        var c := calls[f.index];
        calls := calls[f.index := Extended(c, f)];
      }
      assert fragments[..|fragments|] == fragments;
    }
  }

  /** The pieces of one call that only append, in order. */
  function Text(fs: seq<Fragment>, index: int): (r: Call) {
    if fs == [] then Call("", "")
    else
      var before, f := Text(fs[..|fs| - 1], index), fs[|fs| - 1];
      if f.index == index then Call(before.id + f.id, before.name + f.name) else before
  }

  /** The last id, and the last name, that overwriting pieces of a call gave it. */
  function LastGiven(fs: seq<Fragment>, index: int): (r: Call) {
    if fs == [] then Call("", "")
    else
      var before, f := LastGiven(fs[..|fs| - 1], index), fs[|fs| - 1];
      if f.index != index then before
      else Call(if f.id == "" then before.id else f.id, if f.name == "" then before.name else f.name)
  }

  /** A call sent in overwriting pieces has the last id and the last name that one of them carried. */
  lemma {:induction false} PiecesOverwrite(fs: seq<Fragment>, index: int)
    requires forall k :: 0 <= k < |fs| && fs[k].index == index ==> !fs[k].appends
    ensures index in Accumulated(map[], fs) ==> Accumulated(map[], fs)[index] == LastGiven(fs, index)
    ensures index !in Accumulated(map[], fs) ==> LastGiven(fs, index) == Call("", "")
    decreases |fs|
  {
    if fs != [] {
      assert forall k :: 0 <= k < |fs| - 1 ==> fs[..|fs| - 1][k] == fs[k];
      PiecesOverwrite(fs[..|fs| - 1], index);
    }
  }

  /** A piece that starts a call after it was given an id, as the first one of a streamed tool call does, names it; the
      appended pieces behind it extend the name. */
  lemma {:induction false} PiecesExtendWhatWasGiven(calls: map<int, Call>, fs: seq<Fragment>, index: int)
    requires index in calls && forall k :: 0 <= k < |fs| && fs[k].index == index ==> fs[k].appends
    ensures index in Accumulated(calls, fs)
    ensures Accumulated(calls, fs)[index] ==
            Call(calls[index].id + Text(fs, index).id, calls[index].name + Text(fs, index).name)
    decreases |fs|
  {
    if fs != [] {
      assert forall k :: 0 <= k < |fs| - 1 ==> fs[..|fs| - 1][k] == fs[k];
      PiecesExtendWhatWasGiven(calls, fs[..|fs| - 1], index);
    }
  }

  /** A call sent in appended pieces is put together from its own pieces, whatever pieces of other calls come in
      between; a call exists exactly when a piece of it came. */
  lemma {:induction false} PiecesAreJoined(fs: seq<Fragment>, index: int)
    requires forall k :: 0 <= k < |fs| && fs[k].index == index ==> fs[k].appends
    ensures index in Accumulated(map[], fs) <==> exists k :: 0 <= k < |fs| && fs[k].index == index
    ensures index in Accumulated(map[], fs) ==> Accumulated(map[], fs)[index] == Text(fs, index)
    ensures index !in Accumulated(map[], fs) ==> Text(fs, index) == Call("", "")
    decreases |fs|
  {
    if fs != [] {
      var rest, f := fs[..|fs| - 1], fs[|fs| - 1];
      PiecesAreJoined(rest, index);
      if f.index == index {
        assert fs[|fs| - 1].index == index;
      } else if k :| 0 <= k < |fs| && fs[k].index == index {
        assert rest[k].index == index;
      }
    }
  }
}
