/**
 * One `runPythonScript` call: the preconditions checked before its stdout
 * listener is attached, and the listener itself, which buffers chunks,
 * cuts them into lines and routes each line as noise, progress or final
 * response. Several calls may be outstanding at once, each with its own
 * listener; this module models one of them.
 */
module Dispatcher {
  import opened JsText
  import opened Json
  import opened Framing
  import opened Codec
  import opened Supervisor

  /** The call's JavaScript promise. */
  datatype Promise = Pending | Settled(outcome: Outcome)

  /** Whether `stdin.write` of the request line returned or threw. */
  datatype WriteOutcome = Written | WriteThrew(message: string)

  /**
   * A stdout chunk, and whether the call's window existed and was not
   * destroyed when it arrived.
   */
  datatype Chunk = Chunk(text: string, windowLive: bool)

  /**
   * The state of one call: its promise, whether its stdout listener is
   * attached, its line buffer, the progress frames sent to the window so
   * far, and whether the request line was written to the worker's stdin.
   */
  datatype Call =
    Call(promise: Promise, attached: bool, buffer: string, sent: seq<Value>, requestWritten: bool)

  /** The listener is attached exactly while the promise is pending. */
  predicate Consistent(c: Call) {
    c.attached <==> c.promise.Pending?
  }

  /**
   * The synchronous part of the call: without a live process nothing is
   * written; a write that throws rejects; otherwise the listener attaches.
   */
  function Begin(h: Handle, w: WriteOutcome): (c: Call)
    ensures Consistent(c) && c.buffer == [] && c.sent == []
    ensures c.attached <==> Running(h) && w.Written?
    ensures c.requestWritten <==> c.attached
    ensures !Running(h) ==> c.promise == Settled(Rejected(NotRunning))
    ensures Running(h) && w.WriteThrew? ==> c.promise == Settled(Rejected(WriteFailed(w.message)))
  {
    if h.NoProcess? || h.killed then Call(Settled(Rejected(NotRunning)), false, [], [], false)
    else
      match w
      case WriteThrew(m) => Call(Settled(Rejected(WriteFailed(m))), false, [], [], false)
      case Written => Call(Pending, true, [], [], true)
  }

  /** `resolve`/`reject`: only the first settlement of a promise counts. */
  function Settle(p: Promise, o: Outcome): Promise {
    if p.Pending? then Settled(o) else p
  }

  /** Detaches the listener and attempts to settle the promise. */
  function Finish(c: Call, o: Outcome): Call {
    c.(attached := false, promise := Settle(c.promise, o))
  }

  /**
   * One pass of the `while` body on a cut line, following the source's
   * branches; it runs whether or not the listener is still attached.
   */
  function ProcessLine(c: Call, line: string, windowLive: bool, parse: Parser): (r: Call)
    ensures r.buffer == c.buffer && r.requestWritten == c.requestWritten
    ensures !Framed(line) ==> r == c
    ensures !c.promise.Pending? ==> r.promise == c.promise
    ensures Consistent(c) ==> Consistent(r)
    ensures Classify(line, parse).Progress? ==>
      && r.promise == c.promise && r.attached == c.attached
      && r.sent == c.sent + (if windowLive then [Classify(line, parse).payload] else [])
    ensures !Classify(line, parse).Progress? ==> r.sent == c.sent
    ensures Classify(line, parse).Final? ==>
      !r.attached && r.promise == Settle(c.promise, Classify(line, parse).outcome)
    ensures Classify(line, parse).Noise? ==> r == c
  {
    if !Framed(line) then c
    else
      match parse(line)
      case SyntaxError(m) => Finish(c, Rejected(Malformed(m)))
      case Parsed(response) =>
        if response.JNull? then Finish(c, Rejected(NullFrame))
        else if HasString(response, "type", "progress") then
          if windowLive then c.(sent := c.sent + [response]) else c
        else if Truthy(Get(response, "success")) then Finish(c, Resolved(Get(response, "result")))
        else Finish(c, Rejected(WorkerError(Get(response, "error"))))
  }

  /** The lines of one chunk, processed in order. */
  function ProcessLines(c: Call, lines: seq<string>, windowLive: bool, parse: Parser): (r: Call)
    ensures r.buffer == c.buffer && r.requestWritten == c.requestWritten
    ensures !c.promise.Pending? ==> r.promise == c.promise
    ensures Consistent(c) ==> Consistent(r)
    ensures !windowLive ==> r.sent == c.sent
    decreases |lines|
  {
    if lines == [] then c
    else
      var last := |lines| - 1;
      ProcessLine(ProcessLines(c, lines[..last], windowLive, parse), lines[last], windowLive, parse)
  }

  /**
   * The stdout `data` listener. A detached listener never sees the chunk.
   * An attached one appends it to the buffer, processes every complete
   * line in it (including lines after one that detached it) and keeps the
   * unterminated tail.
   */
  function HandleChunk(c: Call, chunk: Chunk, parse: Parser): (r: Call)
    ensures !c.attached ==> r == c
    ensures c.attached ==> '\n' !in r.buffer
    ensures c.attached ==>
      var input := c.buffer + chunk.text;
      |r.buffer| <= |input| && r.buffer == input[|input| - |r.buffer|..]
    ensures !c.promise.Pending? ==> r.promise == c.promise
    ensures Consistent(c) ==> Consistent(r)
    ensures r.requestWritten == c.requestWritten
    // Every progress line of the chunk is forwarded, also those behind a final frame.
    ensures c.attached ==>
      var lines := CutLines(c.buffer + chunk.text).0;
      r.sent == c.sent + (if chunk.windowLive then Progresses(lines, parse) else [])
  {
    if !c.attached then c
    else
      var input := c.buffer + chunk.text;
      var cut := CutLines(input);
      assert input == Join(cut.0) + cut.1;
      ForwardsAllProgress(c, cut.0, chunk.windowLive, parse);
      ProcessLines(c, cut.0, chunk.windowLive, parse).(buffer := cut.1)
  }

  /**
   * The listener as the source writes it, with `indexOf` and `substring`
   * in a loop. It emits the same lines and leaves the same state as
   * HandleChunk, and what it emits plus what it keeps is exactly the old
   * buffer followed by the chunk.
   */
  method HandleData(c: Call, chunk: Chunk, parse: Parser) returns (r: Call, emitted: seq<string>)
    requires c.attached
    ensures Join(emitted) + r.buffer == c.buffer + chunk.text
    ensures LineFree(emitted) && '\n' !in r.buffer
    ensures r == HandleChunk(c, chunk, parse)
  {
    var state := c;
    var buffer := c.buffer + chunk.text;
    emitted := [];
    var boundary := IndexOf(buffer, '\n');
    while boundary != -1
      invariant boundary == IndexOf(buffer, '\n')
      invariant LineFree(emitted)
      invariant Join(emitted) + buffer == c.buffer + chunk.text
      invariant state == ProcessLines(c, emitted, chunk.windowLive, parse)
      decreases |buffer|
    {
      var rawData := buffer[..boundary];
      CutOneLine(emitted, buffer, boundary);
      ProcessLinesSnoc(c, emitted, rawData, chunk.windowLive, parse);
      buffer := buffer[boundary + 1..];
      state := ProcessLine(state, rawData, chunk.windowLive, parse);
      emitted := emitted + [rawData];
      boundary := IndexOf(buffer, '\n');
    }
    r := state.(buffer := buffer);
    CutLinesUnique(emitted, buffer);
    assert r == HandleChunk(c, chunk, parse);
  }

  /** One turn of the loop moves the first line of the buffer to the emitted lines. */
  lemma CutOneLine(emitted: seq<string>, buffer: string, boundary: int)
    requires LineFree(emitted)
    requires 0 <= boundary && boundary == IndexOf(buffer, '\n')
    ensures LineFree(emitted + [buffer[..boundary]])
    ensures Join(emitted + [buffer[..boundary]]) + buffer[boundary + 1..] == Join(emitted) + buffer
  {
    var line := buffer[..boundary];
    var rest := buffer[boundary + 1..];
    JoinAppend(emitted, [line]);
    JoinCons(line, []);
    SplitAtBoundary(buffer, boundary);
    Assoc(Join(emitted), line + "\n", rest);
    LineFreeCons(line, []);
    LineFreeAppend(emitted, [line]);
  }

  lemma ProcessLinesSnoc(c: Call, lines: seq<string>, line: string, windowLive: bool, parse: Parser)
    ensures ProcessLines(c, lines + [line], windowLive, parse)
      == ProcessLine(ProcessLines(c, lines, windowLive, parse), line, windowLive, parse)
  {
    assert (lines + [line])[..|lines|] == lines;
  }

  /** The concatenated text of a chunk sequence. */
  function Texts(chunks: seq<Chunk>): string
    decreases |chunks|
  {
    if chunks == [] then [] else chunks[0].text + Texts(chunks[1..])
  }

  /** Delivers stdout chunks in order. */
  function Feed(c: Call, chunks: seq<Chunk>, parse: Parser): (r: Call)
    ensures !c.promise.Pending? ==> r.promise == c.promise
    ensures Consistent(c) ==> Consistent(r)
    ensures r.requestWritten == c.requestWritten
    decreases |chunks|
  {
    if chunks == [] then c else Feed(HandleChunk(c, chunks[0], parse), chunks[1..], parse)
  }

  /** Reference: the settlement the first final frame among the lines calls for. */
  function FirstFinal(lines: seq<string>, parse: Parser): Promise
    decreases |lines|
  {
    if lines == [] then Pending
    else
      match Classify(lines[0], parse)
      case Final(o) => Settled(o)
      case _ => FirstFinal(lines[1..], parse)
  }

  lemma {:induction false} FirstFinalAppend(a: seq<string>, b: seq<string>, parse: Parser)
    ensures FirstFinal(a + b, parse) ==
      if FirstFinal(a, parse).Settled? then FirstFinal(a, parse) else FirstFinal(b, parse)
    decreases |a|
  {
    if a == [] {
      assert a + b == b;
    } else {
      assert (a + b)[1..] == a[1..] + b;
      FirstFinalAppend(a[1..], b, parse);
    }
  }

  /**
   * From a pending call, the lines of a chunk settle the promise on the
   * first final frame among them, and the listener is detached exactly
   * when they do.
   */
  lemma {:induction false}
    ProcessLinesDecide(c: Call, lines: seq<string>, windowLive: bool, parse: Parser)
    requires c.attached && c.promise.Pending?
    ensures ProcessLines(c, lines, windowLive, parse).promise == FirstFinal(lines, parse)
    ensures ProcessLines(c, lines, windowLive, parse).attached <==> FirstFinal(lines, parse).Pending?
    decreases |lines|
  {
    if lines != [] {
      var init := lines[..|lines| - 1];
      var last := lines[|lines| - 1];
      assert init + [last] == lines;
      ProcessLinesDecide(c, init, windowLive, parse);
      ProcessLinesSnoc(c, init, last, windowLive, parse);
      FirstFinalAppend(init, [last], parse);
      FirstFinalSingle(last, parse);
      var before := ProcessLines(c, init, windowLive, parse);
      if before.promise.Pending? {
        LineOnPending(before, last, windowLive, parse);
      }
    }
  }

  lemma FirstFinalSingle(line: string, parse: Parser)
    ensures FirstFinal([line], parse) ==
      if Classify(line, parse).Final? then Settled(Classify(line, parse).outcome) else Pending
  {
    assert [line][1..] == [];
  }

  /** Reference: the payloads of the progress frames among the lines, in order. */
  function Progresses(lines: seq<string>, parse: Parser): seq<Value>
    decreases |lines|
  {
    if lines == [] then []
    else
      match Classify(lines[0], parse)
      case Progress(v) => [v] + Progresses(lines[1..], parse)
      case _ => Progresses(lines[1..], parse)
  }

  lemma {:induction false} ProgressesAppend(a: seq<string>, b: seq<string>, parse: Parser)
    ensures Progresses(a + b, parse) == Progresses(a, parse) + Progresses(b, parse)
    decreases |a|
  {
    if a == [] {
      assert a + b == b;
    } else {
      assert (a + b)[1..] == a[1..] + b;
      ProgressesAppend(a[1..], b, parse);
    }
  }

  /**
   * With a live window, processing lines sends the payload of every
   * progress frame among them, in order, whether or not an earlier line
   * settled the call and detached the listener; without one it sends
   * nothing.
   */
  lemma {:induction false}
    ForwardsAllProgress(c: Call, lines: seq<string>, windowLive: bool, parse: Parser)
    ensures ProcessLines(c, lines, windowLive, parse).sent
      == c.sent + (if windowLive then Progresses(lines, parse) else [])
    decreases |lines|
  {
    if lines == [] {
      assert c.sent + [] == c.sent;
    } else {
      var init := lines[..|lines| - 1];
      var last := lines[|lines| - 1];
      assert init + [last] == lines;
      var before := ProcessLines(c, init, windowLive, parse);
      ForwardsAllProgress(c, init, windowLive, parse);
      ProcessLinesSnoc(c, init, last, windowLive, parse);
      SentByLine(before, last, windowLive, parse);
      if windowLive {
        ProgressesAppend(init, [last], parse);
        assert (c.sent + Progresses(init, parse)) + Progresses([last], parse)
          == c.sent + (Progresses(init, parse) + Progresses([last], parse));
      }
    }
  }

  /** One line sends its payload exactly when it is a progress frame and the window is live. */
  lemma SentByLine(c: Call, line: string, windowLive: bool, parse: Parser)
    ensures ProcessLine(c, line, windowLive, parse).sent
      == c.sent + (if windowLive then Progresses([line], parse) else [])
  {
    ProgressesSingle(line, parse);
    assert c.sent + [] == c.sent;
  }

  lemma ProgressesSingle(line: string, parse: Parser)
    ensures Progresses([line], parse) ==
      if Classify(line, parse).Progress? then [Classify(line, parse).payload] else []
  {
    assert [line][1..] == [];
  }

  /** Lines with no final frame among them leave the first final frame to what follows. */
  lemma {:induction false} FirstFinalSkips(pre: seq<string>, rest: seq<string>, parse: Parser)
    requires forall l :: l in pre ==> !Classify(l, parse).Final?
    ensures FirstFinal(pre + rest, parse) == FirstFinal(rest, parse)
    decreases |pre|
  {
    if pre == [] {
      assert pre + rest == rest;
    } else {
      assert pre[0] in pre;
      assert (pre + rest)[1..] == pre[1..] + rest;
      FirstFinalSkips(pre[1..], rest, parse);
    }
  }

  /** A final frame behind lines that hold none is the first final frame. */
  lemma FirstFinalAt(pre: seq<string>, line: string, post: seq<string>, parse: Parser)
    requires forall l :: l in pre ==> !Classify(l, parse).Final?
    requires Classify(line, parse).Final?
    ensures FirstFinal(pre + [line] + post, parse) == Settled(Classify(line, parse).outcome)
  {
    assert pre + [line] + post == pre + ([line] + post);
    FirstFinalSkips(pre, [line] + post, parse);
    assert ([line] + post)[0] == line;
  }

  /** A detached listener never runs again: later chunks change nothing. */
  lemma {:induction false} DetachedIgnoresChunks(c: Call, chunks: seq<Chunk>, parse: Parser)
    requires !c.attached
    ensures Feed(c, chunks, parse) == c
    decreases |chunks|
  {
    if chunks != [] {
      DetachedIgnoresChunks(HandleChunk(c, chunks[0], parse), chunks[1..], parse);
    }
  }

  /**
   * However the worker's output is split into chunks, an attached call
   * settles exactly as the first final frame among the complete lines of
   * the whole output dictates, and stays pending if there is none. Its
   * buffer, as always between chunks, holds no complete line.
   */
  lemma {:induction false} FeedSettlesOnFirstFinal(c: Call, chunks: seq<Chunk>, parse: Parser)
    requires c.attached && c.promise.Pending? && '\n' !in c.buffer
    ensures Feed(c, chunks, parse).promise == FirstFinal(CutLines(c.buffer + Texts(chunks)).0, parse)
    decreases |chunks|
  {
    if chunks == [] {
      assert c.buffer + Texts(chunks) == c.buffer;
      CutLinesEmpty(c.buffer);
    } else {
      var k := chunks[0];
      var cut := CutLines(c.buffer + k.text);
      var next := HandleChunk(c, k, parse);
      assert next == ProcessLines(c, cut.0, k.windowLive, parse).(buffer := cut.1);
      ProcessLinesDecide(c, cut.0, k.windowLive, parse);
      var later := CutLines(cut.1 + Texts(chunks[1..])).0;
      WholeOutputLines(c.buffer, chunks);
      FirstFinalAppend(cut.0, later, parse);
      assert Feed(c, chunks, parse) == Feed(next, chunks[1..], parse);
      if next.attached {
        FeedSettlesOnFirstFinal(next, chunks[1..], parse);
      } else {
        DetachedIgnoresChunks(next, chunks[1..], parse);
      }
    }
  }

  /** The lines of the whole output are those of the first chunk followed by the rest's. */
  lemma WholeOutputLines(buffer: string, chunks: seq<Chunk>)
    requires chunks != []
    ensures var cut := CutLines(buffer + chunks[0].text);
      CutLines(buffer + Texts(chunks)).0 == cut.0 + CutLines(cut.1 + Texts(chunks[1..])).0
  {
    assert buffer + Texts(chunks) == (buffer + chunks[0].text) + Texts(chunks[1..]);
    CutLinesAppend(buffer + chunks[0].text, Texts(chunks[1..]));
  }

  /** A buffer holding no line terminator yields no line. */
  lemma CutLinesEmpty(buffer: string)
    ensures '\n' !in buffer ==> CutLines(buffer) == ([], buffer)
  {
    if '\n' !in buffer {
      assert Join([]) + buffer == buffer;
      CutLinesUnique([], buffer);
    }
  }

  /** A call whose window never exists (the start-up clean-up call) forwards no progress. */
  lemma {:induction false} NoWindowForwardsNothing(c: Call, chunks: seq<Chunk>, parse: Parser)
    requires forall i :: 0 <= i < |chunks| ==> !chunks[i].windowLive
    ensures Feed(c, chunks, parse).sent == c.sent
    decreases |chunks|
  {
    if chunks != [] {
      NoWindowForwardsNothing(HandleChunk(c, chunks[0], parse), chunks[1..], parse);
    }
  }

  /**
   * A final frame and a progress frame arriving in the same chunk: the
   * call resolves and detaches, and the progress frame behind it is still
   * forwarded, because the loop drains the rest of the chunk.
   */
  lemma TrailingProgressStillForwarded(c: Call, parse: Parser, result: Value, progress: Value)
    requires c.attached && c.promise.Pending? && c.buffer == []
    requires progress == JObj([("type", JStr("progress"))])
    requires parse("{r}") == Parsed(JObj([("success", JBool(true)), ("result", result)]))
    requires parse("{p}") == Parsed(progress)
    ensures var r := HandleChunk(c, Chunk("{r}\n{p}\n", true), parse);
      && r.promise == Settled(Resolved(Defined(result)))
      && !r.attached
      && r.sent == c.sent + [progress]
  {
    var chunk := Chunk("{r}\n{p}\n", true);
    TwoLineChunk();
    WholeLinesChunk(c, chunk, ["{r}", "{p}"], parse);
    TwoLines(c, "{r}", "{p}", true, parse);
    FinalLine(parse, result);
    ProgressLine(parse, progress);
    LineOnPending(c, "{r}", true, parse);
    var first := ProcessLine(c, "{r}", true, parse);
    LineOnSettled(first, "{p}", true, parse);
  }

  /** What one frame does to a pending call. */
  lemma LineOnPending(c: Call, line: string, windowLive: bool, parse: Parser)
    requires c.promise.Pending?
    ensures Classify(line, parse).Final? ==>
      ProcessLine(c, line, windowLive, parse)
        == c.(attached := false, promise := Settled(Classify(line, parse).outcome))
    ensures !Classify(line, parse).Final? ==>
      ProcessLine(c, line, windowLive, parse).promise == Pending
      && ProcessLine(c, line, windowLive, parse).attached == c.attached
  {
  }

  /** What one frame does to a settled call: at most a progress frame is still forwarded. */
  lemma LineOnSettled(c: Call, line: string, windowLive: bool, parse: Parser)
    requires !c.promise.Pending? && !c.attached
    ensures Classify(line, parse).Progress? && windowLive ==>
      ProcessLine(c, line, windowLive, parse) == c.(sent := c.sent + [Classify(line, parse).payload])
    ensures !(Classify(line, parse).Progress? && windowLive) ==>
      ProcessLine(c, line, windowLive, parse) == c
  {
  }

  /** A chunk that ends on a line boundary leaves the buffer empty. */
  lemma WholeLinesChunk(c: Call, chunk: Chunk, lines: seq<string>, parse: Parser)
    requires c.attached && c.buffer == [] && CutLines(chunk.text) == (lines, [])
    ensures HandleChunk(c, chunk, parse)
      == ProcessLines(c, lines, chunk.windowLive, parse).(buffer := [])
  {
    assert c.buffer + chunk.text == chunk.text;
  }

  /** Processing two lines is processing the first, then the second. */
  lemma TwoLines(c: Call, first: string, second: string, windowLive: bool, parse: Parser)
    ensures ProcessLines(c, [first, second], windowLive, parse)
      == ProcessLine(ProcessLine(c, first, windowLive, parse), second, windowLive, parse)
  {
    var lines := [first, second];
    assert lines[..1] == [first] && lines[1] == second;
    assert [first][..0] == [];
    assert ProcessLines(c, [first], windowLive, parse) == ProcessLine(c, first, windowLive, parse);
  }

  /** The chunk of the trailing-progress example holds exactly two lines. */
  lemma TwoLineChunk()
    ensures CutLines("{r}\n{p}\n") == (["{r}", "{p}"], [])
  {
    var lines := ["{r}", "{p}"];
    assert Join(lines) + [] == "{r}\n{p}\n";
    CutLinesUnique(lines, []);
  }

  /** The example's first line is a final frame that resolves. */
  lemma FinalLine(parse: Parser, result: Value)
    requires parse("{r}") == Parsed(JObj([("success", JBool(true)), ("result", result)]))
    ensures Classify("{r}", parse) == Final(Resolved(Defined(result)))
  {
    FramedAfterWhitespace("{r}", 0);
    SuccessObject(result);
    var v := JObj([("success", JBool(true)), ("result", result)]);
    assert Truthy(Get(v, "success"));
    assert Classify("{r}", parse) == Final(Resolved(Get(v, "result")));
  }

  lemma SuccessObject(result: Value)
    ensures var v := JObj([("success", JBool(true)), ("result", result)]);
      && !HasString(v, "type", "progress")
      && Get(v, "success") == Defined(JBool(true))
      && Get(v, "result") == Defined(result)
  {
    var members := [("success", JBool(true)), ("result", result)];
    var head := [("success", JBool(true))];
    assert members[..1] == head && head[..0] == [];
    assert Lookup(head, "type") == Lookup([], "type") == Undefined;
    assert Lookup(members, "type") == Lookup(head, "type");
    assert Lookup(members, "success") == Lookup(head, "success");
  }

  /** The example's second line is a progress frame. */
  lemma ProgressLine(parse: Parser, progress: Value)
    requires progress == JObj([("type", JStr("progress"))])
    requires parse("{p}") == Parsed(progress)
    ensures Classify("{p}", parse) == Progress(progress)
  {
    FramedAfterWhitespace("{p}", 0);
  }
}
