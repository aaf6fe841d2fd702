/**
 * The `runPythonScript` IPC handler: it checks the process, awaits the
 * call and turns its settlement into the `{success, result | error}`
 * reply the renderer receives.
 */
module Bridge {
  import opened Wrappers
  import opened Json
  import opened Framing
  import opened Codec
  import opened Supervisor
  import opened Dispatcher

  /** `{success: true, result}` or `{success: false, error}`. */
  datatype Reply = Success(result: Prop) | Failure(error: string)

  /** The handler's own answer when there is no live process. */
  const BackendDown := "Python backend is not running. Please restart the application."

  /** The rejection message `runPythonScript` itself uses when there is no live process. */
  const NotRunningMessage := "Python process is not running"

  /** V8's TypeError message for reading `.type` of `null`. */
  const NullTypeMessage := "Cannot read properties of null (reading 'type')"

  /**
   * `error.message` of a rejection. `new Error(x)` keeps a string as is,
   * turns `undefined` into the empty message, and converts any other value
   * with JavaScript's ToString, which `show` stands for.
   */
  function Message(e: CallError, show: Value -> string): (m: string)
    ensures e.WorkerError? && e.error == Undefined ==> m == []
    ensures e.WorkerError? && e.error.Defined? && e.error.value.JStr? ==> m == e.error.value.s
    ensures e.WriteFailed? || e.Malformed? ==> m == e.message
  {
    match e
    case NotRunning => NotRunningMessage
    case WriteFailed(msg) => msg
    case Malformed(msg) => msg
    case NullFrame => NullTypeMessage
    case WorkerError(err) =>
      match err
      case Undefined => []
      case Defined(v) => if v.JStr? then v.s else show(v)
  }

  /** The reply for a settled call; none while it is pending. */
  function ReplyTo(p: Promise, show: Value -> string): (r: Option<Reply>)
    ensures r.None? <==> p.Pending?
    ensures r.Some? && r.value.Success? <==> p.Settled? && p.outcome.Resolved?
    ensures p.Settled? && p.outcome.Resolved? ==> r == Some(Success(p.outcome.result))
    ensures p.Settled? && p.outcome.Rejected? ==> r == Some(Failure(Message(p.outcome.reason, show)))
  {
    match p
    case Pending => None
    case Settled(Resolved(v)) => Some(Success(v))
    case Settled(Rejected(e)) => Some(Failure(Message(e, show)))
  }

  /**
   * The IPC handler for one request: the handle it checks, how the stdin
   * write went, and the stdout chunks that follow. `None` means the
   * handler is still awaiting the call.
   */
  function Invoke(h: Handle, w: WriteOutcome, chunks: seq<Chunk>, parse: Parser, show: Value -> string)
    : (r: Option<Reply>)
    ensures !Running(h) ==> r == Some(Failure(BackendDown))
    ensures Running(h) && w.WriteThrew? ==> r == Some(Failure(w.message))
  {
    if h.NoProcess? || h.killed then Some(Failure(BackendDown))
    else ReplyTo(Feed(Begin(h, w), chunks, parse).promise, show)
  }

  /**
   * End to end: once the request is written, the reply is exactly what the
   * first final frame in the worker's whole output calls for, however
   * that output is split into chunks, and there is no reply without one.
   */
  lemma InvokeAnswersFirstFinal(h: Handle, chunks: seq<Chunk>, parse: Parser, show: Value -> string)
    requires Running(h)
    ensures Invoke(h, Written, chunks, parse, show)
      == ReplyTo(FirstFinal(CutLines(Texts(chunks)).0, parse), show)
  {
    var c := Begin(h, Written);
    FeedSettlesOnFirstFinal(c, chunks, parse);
    assert c.buffer + Texts(chunks) == Texts(chunks);
  }

  /**
   * The worker's final object decides the reply, whatever progress or
   * noise lines precede it and whatever follows it: `success: true` when
   * its `success` is truthy, carrying `result`, and otherwise the worker's
   * `error` as the message.
   */
  lemma ReplyFollowsWorker(h: Handle, chunks: seq<Chunk>, parse: Parser, show: Value -> string,
                           pre: seq<string>, line: string, post: seq<string>)
    requires Running(h)
    requires CutLines(Texts(chunks)).0 == pre + [line] + post
    requires forall l :: l in pre ==> !Classify(l, parse).Final?
    requires Framed(line) && parse(line).Parsed? && parse(line).value.JObj?
    requires !HasString(parse(line).value, "type", "progress")
    ensures Truthy(Get(parse(line).value, "success")) ==>
      Invoke(h, Written, chunks, parse, show) == Some(Success(Get(parse(line).value, "result")))
    ensures !Truthy(Get(parse(line).value, "success")) ==>
      Invoke(h, Written, chunks, parse, show)
        == Some(Failure(Message(WorkerError(Get(parse(line).value, "error")), show)))
  {
    var v := parse(line).value;
    var o := if Truthy(Get(v, "success")) then Resolved(Get(v, "result"))
             else Rejected(WorkerError(Get(v, "error")));
    assert Classify(line, parse) == Final(o);
    FirstFinalAt(pre, line, post, parse);
    InvokeAnswersFirstFinal(h, chunks, parse, show);
    assert Invoke(h, Written, chunks, parse, show) == ReplyTo(Settled(o), show);
  }

  /**
   * A start-up whose readiness wait failed (process error or timeout)
   * leaves a live handle behind, so a later request is still written to
   * the worker and answered from its output instead of with BackendDown;
   * with no final frame in that output it is never answered.
   */
  lemma FailedStartupStillWrites(events: seq<Readiness.Event>, parse: Parser, chunks: seq<Chunk>,
                                 show: Value -> string)
    requires Readiness.FirstDecisive(events, parse, Readiness.DefaultTimeoutMs).Failed?
    ensures Start(Spawned, events, parse) == Started(Process(false), false)
    ensures Begin(Process(false), Written).requestWritten
    ensures Invoke(Process(false), Written, chunks, parse, show)
      == ReplyTo(FirstFinal(CutLines(Texts(chunks)).0, parse), show)
  {
    StartReadyIffFirstEventReady(events, parse);
    InvokeAnswersFirstFinal(Process(false), chunks, parse, show);
  }
}
