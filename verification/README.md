# Worker pipe protocol of the RISKWISE Electron host

The Electron main process (`public/electron.js`) supervises a long-running
Python worker and talks to it over pipes: one JSON request line on the
worker's stdin per call, and `\n`-terminated JSON lines back on its stdout.
The lines are progress events (`{"type": "progress", ...}`), which go to the
window, or a final response (`{"success": ..., "result" | "error": ...}`),
which settles the call. A one-shot waiter expects
`{"type": "event", "name": "ready"}` after the worker is spawned. One teardown
routine kills the worker, and every exit path calls it.

This project models the host side of that protocol as pure state machines:

- `JsText`: `indexOf` on one character and `trim` with ECMAScript's
  whitespace set.
- `Json`: parsed values, property reads with "last duplicate key wins", and
  JavaScript truthiness. `JSON.parse` is a parameter
  (`Parser = string -> Parsed`) that either returns a value or throws a
  SyntaxError with a message.
- `Framing`: the chunk-to-line buffer of `runPythonScript`.
- `Codec`: how one line is read. It is either noise, a progress event or a
  final response.
- `Dispatcher`: one `runPythonScript` call. It covers the precondition
  checks, the stdout listener (both as a function and as the source's
  `while` loop), delivery of a chunk sequence, and attaching and detaching
  the listener.
- `Readiness`: `waitForPythonProcessReady` as a waiter over a sequence of
  events: stdout data, process error and timer expiry.
- `Supervisor`: the global handle, `cleanupPython` and the exit paths that
  call it, and the start-up sequence.
- `Bridge`: the `runPythonScript` IPC handler and its
  `{success, result | error}` replies.

The inputs the code cannot see are parameters:

- the parser;
- whether `stdin.write` threw;
- whether the window exists and is not destroyed when each chunk arrives;
- whether spawning threw;
- JavaScript's ToString of a non-string `error` value.

Timers are an input event.

## Where the code and the intended protocol differ (the model follows the code)

- **Trailing lines.** After a final frame the listener is detached, but the
  `while` loop still drains the rest of the same chunk. A progress line
  behind the final frame in that chunk is still sent to the window
  (`Dispatcher.ForwardsAllProgress`, and the concrete example
  `Dispatcher.TrailingProgressStillForwarded`). Only later chunks are
  ignored (`Dispatcher.DetachedIgnoresChunks`).
- **Which lines settle a call.** A line counts as a frame only when its
  trimmed text starts with `{` or `[`. Any such line that is not a progress
  event settles the call:
  - a parse failure rejects it with the SyntaxError's message;
  - an array, or an object whose `success` is falsy and that has no
    `error`, rejects it with an empty message.

  Malformed frames are therefore not dropped. The parser is a parameter of
  the model, so the model also says what a `null` result would do (reading
  `.type` throws and rejects the call, `NullFrame`). A real `JSON.parse` of
  text that starts with `{` or `[` never returns `null`, so the program
  cannot reach this case.
- **Readiness parses the whole chunk.** The readiness waiter parses the
  whole trimmed chunk, not its lines. A chunk that carries the ready line
  together with other output is ignored (`Readiness.Step`).
- **A failed readiness wait leaves the handle live.** A failed wait (process
  error or timeout) is logged, but the handle is neither cleared nor
  killed. Later requests are still written to the worker and answered from
  its output, never with "backend not running"
  (`Bridge.FailedStartupStillWrites`).
- **Worker exit.** When the worker exits, the host only logs it. A pending
  call is not failed and stays pending for ever. No event for it exists in
  the model.
- **Concurrent calls.** Nothing enforces one call at a time. Every call
  attaches its own stdout listener. The model describes one call and its
  listener.

## Model

| member | source | states |
|---|---|---|
| `JsText.IndexOf` | public/electron.js:273 | `indexOf("\n")` is -1 exactly when the text has no `\n`; otherwise it is the position of the first one |
| `JsText.Trim` | public/electron.js:168 | `trim` gives the text between some leading and some trailing run of whitespace and line terminators, with nothing else removed; the result is empty exactly when the text is all whitespace, and otherwise it starts and ends with a visible character |
| `JsText.TrimHead` | public/electron.js:279 | the trimmed line starts with the line's first non-whitespace character |
| `Framing.CutLines` | public/electron.js:272-277 | the cut lines, each followed by `\n`, plus the kept tail give back the old buffer followed by the chunk; no line and not the tail contain `\n` |
| `Framing.CutLinesUnique` | public/electron.js:275-302 | this is the only way to read a buffer as newline-free lines followed by a newline-free tail |
| `Framing.CutLinesAppend` | public/electron.js:271-277 | text delivered in two chunks is cut into the same lines, with the same tail, as when it arrives at once |
| `Codec.Classify` | public/electron.js:279-298 | a line is noise exactly when its trimmed text does not start with `{` or `[`; a parse failure is a rejection carrying the SyntaxError message; a progress frame is the parsed object whose `type` is "progress"; and conversely, for a parsed line, the value alone decides the frame: `null` is a rejection, an object whose `type` is "progress" is a progress frame, and any other value resolves with `result` when `success` is truthy and otherwise rejects with `error` |
| `Codec.FramedAfterWhitespace` | public/electron.js:279 | a line whose first visible character is `{` or `[` is a frame, whatever whitespace precedes it |
| `Dispatcher.Begin` | public/electron.js:258-269 | with no process or a killed one the call is rejected and nothing is written; a throwing write rejects with its message; only a live process and a successful write attach the listener |
| `Dispatcher.ProcessLine` | public/electron.js:279-298 | a skipped line changes nothing; a progress frame never settles the call and is sent only when the window is live; a final frame detaches the listener and settles only a pending promise; a settled promise never changes |
| `Dispatcher.ProcessLines` | public/electron.js:275-302 | processing a chunk's lines keeps the buffer, never changes a settled promise, keeps "attached exactly while pending", and sends nothing without a window |
| `Dispatcher.HandleChunk` | public/electron.js:271-303 | a detached listener sees nothing; an attached one keeps as buffer a `\n`-free suffix of old buffer plus chunk, and with a live window sends the payload of every progress line cut from old buffer plus chunk, in order; a settled promise stays settled; "attached exactly while pending" is preserved |
| `Dispatcher.HandleData` | public/electron.js:271-303 | the source's `indexOf`/`substring` loop emits lines that, with the kept buffer, reassemble old buffer plus chunk, contain no `\n`, and leave the same state as HandleChunk |
| `Dispatcher.Feed` | public/electron.js:305 | over any sequence of chunks a settled promise stays settled and "attached exactly while pending" is preserved |
| `Dispatcher.LineOnPending` | public/electron.js:286-298 | on a pending call a final frame detaches the listener and settles with the frame's outcome; any other line leaves it pending and attached as before |
| `Dispatcher.LineOnSettled` | public/electron.js:282-293 | on a settled call only a progress frame with a live window still has an effect: it is sent |
| `Dispatcher.ForwardsAllProgress` | public/electron.js:275-302 | with a live window, a chunk's lines send exactly the payloads of their progress frames, in order, including those after the frame that settled the call; without one they send nothing |
| `Dispatcher.FirstFinalSkips` | public/electron.js:275-298 | lines holding no final frame do not change which frame settles the call |
| `Dispatcher.ProcessLinesDecide` | public/electron.js:275-302 | from a pending call, a chunk's lines settle it on the first final frame among them, and the listener is detached exactly when they do |
| `Dispatcher.DetachedIgnoresChunks` | public/electron.js:287 | after the listener is detached, no later chunk changes the call |
| `Dispatcher.FeedSettlesOnFirstFinal` | public/electron.js:271-305 | however the output is split into chunks, the call settles as the first final frame among the complete lines of the whole output dictates, and stays pending without one |
| `Dispatcher.NoWindowForwardsNothing` | public/electron.js:283-285 | without a live window no progress frame is ever sent |
| `Dispatcher.TrailingProgressStillForwarded` | public/electron.js:275-302 | a final frame followed by a progress frame in the same chunk resolves and detaches the call, and the progress frame is still sent |
| `Readiness.Begin` | public/electron.js:163-165 | a null handle rejects at once with no listener attached; otherwise the waiter waits with all three listeners live |
| `Readiness.Step` | public/electron.js:167-193 | a chunk that is not the ready event (non-JSON included) changes nothing; a ready chunk resolves, a process error or the timer rejects, and each detaches every listener; a settled waiter ignores every event |
| `Readiness.SettledIsFinal` | public/electron.js:172-191 | once settled, no later event, including a late ready chunk, changes the waiter |
| `Readiness.RunDecidesFirst` | public/electron.js:167-196 | a waiting waiter ends with the outcome of the first ready chunk, process error or timeout, and keeps waiting if none occurs |
| `Readiness.WaitForReady` | public/electron.js:161-197 | with a handle, the wait settles on the first decisive event; with a null handle, it is rejected whatever follows |
| `Supervisor.Cleanup` | public/electron.js:19-29 | the handle always ends cleared; `kill` runs once exactly when a live, not yet killed process was there |
| `Supervisor.CleanupIdempotent` | public/electron.js:19-29 | a second teardown kills nothing and leaves the same cleared handle |
| `Supervisor.ExitKillsAtMostOnce` | public/electron.js:549-583 | however many exit paths call the teardown, the worker is killed exactly once if it was live and never otherwise, and the handle ends cleared |
| `Supervisor.Start` | public/electron.js:64-90 | a throwing spawn leaves no handle and start-up not ready; start-up is ready only with a live handle; once past the wait, the spawned handle is live whatever the outcome |
| `Supervisor.StartReadyIffFirstEventReady` | public/electron.js:67-90 | start-up is still waiting, ready, or failed with a live handle exactly as the first decisive readiness event dictates |
| `Bridge.Message` | public/electron.js:357-359 | the reply's message is the write or parse error's own message, the worker's string `error` unchanged, and empty when `error` is absent |
| `Bridge.ReplyTo` | public/electron.js:355-359 | no reply while the call is pending; `success: true` exactly when it resolved, carrying the result; otherwise `success: false` with the rejection's message |
| `Bridge.Invoke` | public/electron.js:345-361 | without a live process the reply is the fixed "backend not running" failure and nothing is written; a throwing write yields its message |
| `Bridge.InvokeAnswersFirstFinal` | public/electron.js:345-361 | once the request is written, the reply is exactly what the first final frame of the worker's output calls for, however that output is chunked |
| `Bridge.ReplyFollowsWorker` | public/electron.js:279-292 | the worker's first final object, whatever progress or noise lines precede it and whatever follows it, gives `success: true` with its `result` when its `success` is truthy, and otherwise `success: false` with its `error` as message |
| `Bridge.FailedStartupStillWrites` | public/electron.js:67-90 | after a failed readiness wait the handle is live, so a request is written and answered from the worker's output instead of being refused |

## Left out

- Spawning the worker: the executable and script checks (`fs.existsSync`), the environment with `LOG_DIR`, and the pipe set-up. These are OS I/O, so the model only records whether `createPythonProcess` threw.
- `JSON.parse` and `JSON.stringify`: they are external. Parsing is a parameter, and the request line `{scriptName, data}` is not modelled, so neither is a guarantee that it holds no raw newline.
- Decoding stdout bytes: `data.toString()` decodes UTF-8 per chunk, and a multi-byte character split across two chunks is not modelled. Chunks are already-decoded text.
- Timers: they are an event in the readiness event sequence. Real time and the text of the timeout message are not modelled.
- Logging: stderr forwarding, `log.*` calls and the renderer console pipe have no effect on the protocol.
- The global handle being cleared while a call's listener is still attached: the listener's `global.pythonProcess.stdout.off` would then throw. The model assumes the handle is still set while a listener runs.
- Process exit and `kill()` exceptions: an exit event is only logged by the source and is not an input of the model. A throwing `kill()` is caught, and the model does not distinguish it from a successful one.
- Bridge.Message: converting a non-string, non-absent `error` value to text uses JavaScript's ToString, which is the `show` parameter. An object whose own `toString` member makes that conversion throw is not modelled.
- Concurrent calls: each call has its own listener on the shared stdout, and interleavings of several listeners are not modelled.
- Electron glue: windows, loader, dialogs, auto-updater, single-instance lock, GPU flags, and the filesystem IPC handlers (`save-screenshot`, `copy-folder`, `copy-file`, `open-report`, directory fetchers). These are thin platform wrappers.
