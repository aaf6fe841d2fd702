/**
 * The frames the worker writes on stdout, one JSON document per line, and
 * how a single line is read as one of them: noise that is skipped, a
 * progress event, or the final response that settles the call.
 */
module Codec {
  import opened JsText
  import opened Json

  /** Why a call's promise is rejected. */
  datatype CallError =
    | NotRunning                  // no worker process, or it was killed
    | WriteFailed(message: string) // `stdin.write` threw
    | Malformed(message: string)  // `JSON.parse` threw a SyntaxError
    | NullFrame                   // the line parsed to `null`; reading `.type` threw
    | WorkerError(error: Prop)    // a final frame whose `success` is falsy

  /** How a call's promise settles. */
  datatype Outcome = Resolved(result: Prop) | Rejected(reason: CallError)

  datatype Frame = Noise | Progress(payload: Value) | Final(outcome: Outcome)

  /** The line's trimmed text starts with `{` or `[`. */
  predicate Framed(line: string) {
    var t := Trim(line);
    t != [] && (t[0] == '{' || t[0] == '[')
  }

  /**
   * Reads one line. A line whose first visible character is neither `{`
   * nor `[` is noise. Anything else is a frame: an object whose `type` is
   * the string "progress" is a progress event, and every other outcome of
   * parsing, failures included, is a final response.
   */
  function Classify(line: string, parse: Parser): (f: Frame)
    ensures f.Noise? <==> !Framed(line)
    ensures Framed(line) && parse(line).SyntaxError? ==>
      f == Final(Rejected(Malformed(parse(line).message)))
    ensures f.Progress? ==> parse(line) == Parsed(f.payload) && HasString(f.payload, "type", "progress")
    ensures f.Final? && f.outcome.Resolved? ==>
      parse(line).Parsed? && Truthy(Get(parse(line).value, "success"))
      && f.outcome.result == Get(parse(line).value, "result")
    ensures f.Final? && f.outcome.Rejected? && f.outcome.reason.WorkerError? ==>
      parse(line).Parsed? && !Truthy(Get(parse(line).value, "success"))
      && f.outcome.reason.error == Get(parse(line).value, "error")
    // Conversely, the parsed value alone decides which frame the line is.
    ensures Framed(line) && parse(line).Parsed? && parse(line).value.JNull? ==>
      f == Final(Rejected(NullFrame))
    ensures (Framed(line) && parse(line).Parsed? && !parse(line).value.JNull?
             && HasString(parse(line).value, "type", "progress")) ==>
      f == Progress(parse(line).value)
    ensures (Framed(line) && parse(line).Parsed? && !parse(line).value.JNull?
             && !HasString(parse(line).value, "type", "progress")) ==>
      var v := parse(line).value;
      f == Final(if Truthy(Get(v, "success")) then Resolved(Get(v, "result"))
                 else Rejected(WorkerError(Get(v, "error"))))
  {
    if !Framed(line) then Noise
    else
      match parse(line)
      case SyntaxError(m) => Final(Rejected(Malformed(m)))
      case Parsed(v) =>
        if v.JNull? then Final(Rejected(NullFrame))
        else if HasString(v, "type", "progress") then Progress(v)
        else if Truthy(Get(v, "success")) then Final(Resolved(Get(v, "result")))
        else Final(Rejected(WorkerError(Get(v, "error"))))
  }

  /**
   * A line whose first visible character is `{` or `[` is a frame,
   * whatever whitespace precedes it.
   */
  lemma FramedAfterWhitespace(line: string, k: nat)
    requires k < |line| && (line[k] == '{' || line[k] == '[')
    requires forall j :: 0 <= j < k ==> IsTrimmable(line[j])
    ensures Framed(line)
  {
    TrimHead(line, k);
  }
}
