/**
 * The worker process handle kept in `global.pythonProcess`, its teardown
 * from every exit path, and the start-up sequence that spawns the worker
 * and waits for it to become ready.
 */
module Supervisor {
  import opened Json
  import Readiness

  /** The global handle: absent, or a child process whose `killed` flag is known. */
  datatype Handle = NoProcess | Process(killed: bool)

  /** What `runPythonScript` and its IPC handler require before writing a request. */
  predicate Running(h: Handle) {
    h.Process? && !h.killed
  }

  /** The handle after teardown and how many times `kill()` was invoked. */
  datatype Teardown = Teardown(handle: Handle, kills: nat)

  /**
   * `cleanupPython`: kills a live process (an exception from `kill` is
   * caught and logged) and always clears the handle.
   */
  function Cleanup(h: Handle): (t: Teardown)
    ensures t.handle == NoProcess
    ensures t.kills <= 1
    ensures t.kills == 1 <==> Running(h)
  {
    if h.Process? && !h.killed then Teardown(NoProcess, 1) else Teardown(NoProcess, 0)
  }

  /** The exit paths that each call `cleanupPython`. */
  datatype ExitPath =
    | ShutdownRequest       // IPC "shutdown"
    | BeforeQuit            // app "before-quit", also fired by every app.quit()
    | UncaughtException
    | UnhandledRejection
    | SigInt
    | SigTerm

  /** Runs the teardown once per exit path taken, in order. */
  function Exit(h: Handle, paths: seq<ExitPath>): (t: Teardown)
    decreases |paths|
  {
    if paths == [] then Teardown(h, 0)
    else
      var first := Cleanup(h);
      var rest := Exit(first.handle, paths[1..]);
      Teardown(rest.handle, first.kills + rest.kills)
  }

  /** A second teardown finds no handle: it kills nothing and changes nothing. */
  lemma CleanupIdempotent(h: Handle)
    ensures Cleanup(Cleanup(h).handle) == Cleanup(h).(kills := 0)
  {
  }

  /**
   * However many exit paths race, the worker is killed at most once, and
   * exactly once when a live process was there; the handle ends cleared.
   */
  lemma {:induction false} ExitKillsAtMostOnce(h: Handle, paths: seq<ExitPath>)
    ensures Exit(h, paths).kills == (if paths != [] && Running(h) then 1 else 0)
    ensures paths != [] ==> Exit(h, paths).handle == NoProcess
    decreases |paths|
  {
    if paths != [] {
      if paths[1..] != [] {
        ExitKillsAtMostOnce(NoProcess, paths[1..]);
      }
    }
  }

  /** Whether `createPythonProcess` threw (missing executable or script, spawn error). */
  datatype Spawn = SpawnThrew | Spawned

  /** Where start-up stands: still awaiting readiness, or past it. */
  datatype Startup = AwaitingReady | Started(handle: Handle, pythonReady: bool)

  /**
   * The start-up sequence of the `whenReady` callback. A spawn that throws
   * leaves the handle null; otherwise the new handle is stored and the
   * readiness waiter runs. A failed wait is logged and start-up continues,
   * WITHOUT clearing or killing the stored handle.
   */
  function Start(spawn: Spawn, events: seq<Readiness.Event>, parse: Parser): (s: Startup)
    ensures spawn.SpawnThrew? ==> s == Started(NoProcess, false)
    ensures s.Started? && s.pythonReady ==> Running(s.handle)
    ensures spawn.Spawned? ==> s.Started? ==> Running(s.handle)
  {
    match spawn
    case SpawnThrew => Started(NoProcess, false)
    case Spawned =>
      var w := Readiness.Run(Readiness.Begin(true), events, parse, Readiness.DefaultTimeoutMs);
      if w.outcome.Waiting? then AwaitingReady
      else Started(Process(false), w.outcome.Ready?)
  }

  /**
   * Start-up is ready exactly when the first decisive event is a ready
   * chunk; a process error or the five-minute timeout leaves it started but
   * not ready, with the handle still live.
   */
  lemma StartReadyIffFirstEventReady(events: seq<Readiness.Event>, parse: Parser)
    ensures var first := Readiness.FirstDecisive(events, parse, Readiness.DefaultTimeoutMs);
      && (Start(Spawned, events, parse) == AwaitingReady <==> first.Waiting?)
      && (Start(Spawned, events, parse) == Started(Process(false), true) <==> first.Ready?)
      && (Start(Spawned, events, parse) == Started(Process(false), false) <==> first.Failed?)
  {
    Readiness.WaitForReady(true, events, parse, Readiness.DefaultTimeoutMs);
  }
}
