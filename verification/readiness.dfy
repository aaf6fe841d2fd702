/**
 * The one-shot readiness waiter started right after the worker is
 * spawned. Three listeners race: stdout data, the process `error` event
 * and a timer. Whichever settles the promise first also detaches all
 * three, so the promise settles at most once.
 */
module Readiness {
  import opened JsText
  import opened Json

  /** The waiter's default deadline in milliseconds (five minutes). */
  const DefaultTimeoutMs: nat := 300000

  datatype Failure =
    | NullHandle                // no process handle was given
    | ProcessError(error: string)
    | TimedOut(timeoutMs: nat)

  datatype Outcome = Waiting | Ready | Failed(why: Failure)

  /** What the event loop can deliver to the waiter. */
  datatype Event = Data(text: string) | ProcessFault(error: string) | TimerFired

  /** The promise's state and which of the three listeners are still live. */
  datatype Waiter = Waiter(outcome: Outcome, onData: bool, onError: bool, timerArmed: bool)

  predicate Quiet(w: Waiter) {
    !w.onData && !w.onError && !w.timerArmed
  }

  /** All listeners are live while waiting and none once settled. */
  predicate Consistent(w: Waiter) {
    if w.outcome.Waiting? then w.onData && w.onError && w.timerArmed else Quiet(w)
  }

  /**
   * A stdout chunk announces readiness when its WHOLE trimmed text parses
   * to an object with `type` "event" and `name` "ready". A chunk that
   * fails to parse, or parses to `null` (reading `.type` throws), is
   * swallowed by the handler's catch.
   */
  predicate IsReadyChunk(text: string, parse: Parser) {
    match parse(Trim(text))
    case SyntaxError(_) => false
    case Parsed(v) => !v.JNull? && HasString(v, "type", "event") && HasString(v, "name", "ready")
  }

  /** Creating the waiter: a null handle rejects at once, before any listener is attached. */
  function Begin(hasHandle: bool): (w: Waiter)
    ensures Consistent(w)
    ensures w.outcome.Waiting? <==> hasHandle
    ensures !hasHandle ==> w.outcome == Failed(NullHandle)
  {
    if hasHandle then Waiter(Waiting, true, true, true)
    else Waiter(Failed(NullHandle), false, false, false)
  }

  /** `resolve`/`reject` on a JavaScript promise: only the first call counts. */
  function SettleOnce(o: Outcome, next: Outcome): Outcome {
    if o.Waiting? then next else o
  }

  /** Delivers one event to whichever listener is still attached for it. */
  function Step(w: Waiter, e: Event, parse: Parser, timeoutMs: nat): (r: Waiter)
    ensures Consistent(w) ==> Consistent(r)
    ensures !w.outcome.Waiting? && Consistent(w) ==> r == w
    ensures e.Data? && !IsReadyChunk(e.text, parse) ==> r == w
    ensures w.outcome.Waiting? && Consistent(w) && !(e.Data? && !IsReadyChunk(e.text, parse)) ==>
      r.outcome != Waiting && Quiet(r)
    ensures w.outcome.Waiting? && Consistent(w) && e.Data? && IsReadyChunk(e.text, parse) ==>
      r.outcome == Ready
    ensures w.outcome.Waiting? && Consistent(w) && e.ProcessFault? ==>
      r.outcome == Failed(ProcessError(e.error))
    ensures w.outcome.Waiting? && Consistent(w) && e.TimerFired? ==>
      r.outcome == Failed(TimedOut(timeoutMs))
  {
    match e
    case Data(text) =>
      if w.onData && IsReadyChunk(text, parse) then
        // clearTimeout, detach both listeners, resolve
        Waiter(SettleOnce(w.outcome, Ready), false, false, false)
      else w
    case ProcessFault(err) =>
      if w.onError then
        // clearTimeout, detach both listeners, reject
        Waiter(SettleOnce(w.outcome, Failed(ProcessError(err))), false, false, false)
      else w
    case TimerFired =>
      if w.timerArmed then
        // detach both listeners, reject; the timer has fired and is spent
        Waiter(SettleOnce(w.outcome, Failed(TimedOut(timeoutMs))), false, false, false)
      else w
  }

  /** Delivers a sequence of events in order. */
  function Run(w: Waiter, events: seq<Event>, parse: Parser, timeoutMs: nat): (r: Waiter)
    ensures Consistent(w) ==> Consistent(r)
    decreases |events|
  {
    if events == [] then w else Run(Step(w, events[0], parse, timeoutMs), events[1..], parse, timeoutMs)
  }

  /** The outcome an event decides on its own, if any. */
  function Decides(e: Event, parse: Parser, timeoutMs: nat): Outcome {
    match e
    case Data(text) => if IsReadyChunk(text, parse) then Ready else Waiting
    case ProcessFault(err) => Failed(ProcessError(err))
    case TimerFired => Failed(TimedOut(timeoutMs))
  }

  /** Reference: the outcome of the first event that decides anything. */
  function FirstDecisive(events: seq<Event>, parse: Parser, timeoutMs: nat): Outcome
    decreases |events|
  {
    if events == [] then Waiting
    else if !Decides(events[0], parse, timeoutMs).Waiting? then Decides(events[0], parse, timeoutMs)
    else FirstDecisive(events[1..], parse, timeoutMs)
  }

  /** Once settled, no later event (a late ready chunk included) changes the waiter. */
  lemma {:induction false} SettledIsFinal(w: Waiter, events: seq<Event>, parse: Parser, timeoutMs: nat)
    requires Consistent(w) && !w.outcome.Waiting?
    ensures Run(w, events, parse, timeoutMs) == w
    decreases |events|
  {
    if events != [] {
      SettledIsFinal(Step(w, events[0], parse, timeoutMs), events[1..], parse, timeoutMs);
    }
  }

  /**
   * A waiting waiter ends with the outcome of the first ready chunk,
   * process error or timeout among the events, and keeps waiting if none
   * of them occurs.
   */
  lemma {:induction false} RunDecidesFirst(w: Waiter, events: seq<Event>, parse: Parser, timeoutMs: nat)
    requires Consistent(w) && w.outcome.Waiting?
    ensures Run(w, events, parse, timeoutMs).outcome == FirstDecisive(events, parse, timeoutMs)
    decreases |events|
  {
    if events != [] {
      var next := Step(w, events[0], parse, timeoutMs);
      if next.outcome.Waiting? {
        RunDecidesFirst(next, events[1..], parse, timeoutMs);
      } else {
        SettledIsFinal(next, events[1..], parse, timeoutMs);
      }
    }
  }

  /**
   * The whole waiter: a live handle settles on the first decisive event;
   * a null handle is rejected whatever happens afterwards.
   */
  lemma WaitForReady(hasHandle: bool, events: seq<Event>, parse: Parser, timeoutMs: nat)
    ensures hasHandle ==>
      Run(Begin(hasHandle), events, parse, timeoutMs).outcome == FirstDecisive(events, parse, timeoutMs)
    ensures !hasHandle ==> Run(Begin(hasHandle), events, parse, timeoutMs).outcome == Failed(NullHandle)
  {
    if hasHandle {
      RunDecidesFirst(Begin(hasHandle), events, parse, timeoutMs);
    } else {
      SettledIsFinal(Begin(hasHandle), events, parse, timeoutMs);
    }
  }
}
