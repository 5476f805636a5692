/**
 * The lifecycle of a local driver as a pure state machine.  There are two
 * states, Stopped and Running, and the driver keeps its port, whether its
 * process-exit teardown hook is registered, and the time-to-stop (TTS)
 * timers it has armed.  Each operation maps a state to the outcome its
 * callback would receive and the state that follows.  The class in module
 * Driver is proved against these functions.
 */
module Lifecycle {

  type Positive = x: int | x > 0 witness 1

  /** The port a fresh driver binds to; the code fixes only that it is positive. */
  const DEFAULT_PORT: Positive

  /** The TTS window, in seconds, that `start` arms; positive. */
  const DEFAULT_TTS: Positive

  /** Raised by `start` on a running driver; names the port already in use. */
  datatype ServerAlreadyRunningException = ServerAlreadyRunningException(port: int)

  /** Raised when a driver outlives its TTS window: the driver name and the seconds elapsed. */
  datatype ServerTtsExceededException = ServerTtsExceededException(driverName: string, seconds: int)

  /**
   * What a lifecycle callback receives, in place of `(error, result)`:
   * `Ok` is `(null, null)`, `AlreadyStopped` is the one-argument `(null)`
   * call of `stop` on a stopped driver, and the other two carry the error.
   */
  datatype Outcome =
    | Ok
    | AlreadyRunning(alreadyRunning: ServerAlreadyRunningException)
    | AlreadyStopped
    | TtsExceeded(ttsExceeded: ServerTtsExceededException)

  /**
   * The fields of a driver: `_running`, `_port`, `_teardownHook`, and the
   * TTS windows armed and not yet fired, oldest first.
   */
  datatype State = State(running: bool, port: int, teardownHook: bool, armedTts: seq<int>)

  /** An operation's reported outcome together with the state it leaves. */
  datatype Step = Step(outcome: Outcome, next: State)

  /** A running driver always has its teardown hook registered. */
  predicate HookCoversRun(s: State)
  {
    s.running ==> s.teardownHook
  }

  /** The `port` setter: stores the value as given, with no range check. */
  function SetPort(s: State, port: int): (t: State)
    ensures t.port == port
    ensures t.running == s.running && t.teardownHook == s.teardownHook && t.armedTts == s.armedTts
  {
    s.(port := port)
  }

  /**
   * `_registerTeardownHook`: registers the exit handler once; a second call
   * finds it registered and changes nothing.
   */
  function RegisterTeardownHook(s: State): (t: State)
    ensures t.teardownHook
    ensures t.running == s.running && t.port == s.port && t.armedTts == s.armedTts
    ensures s.teardownHook ==> t == s
  {
    if s.teardownHook then s else s.(teardownHook := true)
  }

  /**
   * `_triggerOnTtsExpired(tts, callback)`: arms a timer for `tts` seconds.
   * Nothing fires synchronously, so the driver keeps running and the
   * callback is not reached here.
   */
  function TriggerOnTtsExpired(s: State, tts: int): (t: State)
    ensures t.running == s.running && t.port == s.port && t.teardownHook == s.teardownHook
    ensures t.armedTts == s.armedTts + [tts]
  {
    s.(armedTts := s.armedTts + [tts])
  }

  /**
   * `start(callback)`: on a running driver reports the conflict and changes
   * nothing; otherwise starts the service (which always succeeds here),
   * registers the teardown hook and arms the default TTS timer.
   */
  function Start(s: State): (st: Step)
    ensures st.next.running && st.next.port == s.port
    ensures st.outcome == Ok <==> !s.running
    ensures s.running ==> st.outcome == AlreadyRunning(ServerAlreadyRunningException(s.port)) && st.next == s
    ensures !s.running ==> st.next.teardownHook && st.next.armedTts == s.armedTts + [DEFAULT_TTS]
  {
    if s.running then
      Step(AlreadyRunning(ServerAlreadyRunningException(s.port)), s)
    else
      var t := RegisterTeardownHook(s.(running := true));
      Step(Ok, TriggerOnTtsExpired(t, DEFAULT_TTS))
  }

  /**
   * `stop(callback)`: on a running driver cancels its timers, stops the
   * service and reports `Ok`; on a stopped driver reports `AlreadyStopped`
   * and changes nothing.
   */
  function Stop(s: State): (st: Step)
    ensures !st.next.running && st.next.port == s.port && st.next.teardownHook == s.teardownHook
    ensures st.outcome == (if s.running then Ok else AlreadyStopped)
    ensures s.running ==> st.next.armedTts == []
    ensures !s.running ==> st.next == s
  {
    if s.running then Step(Ok, s.(running := false, armedTts := [])) else Step(AlreadyStopped, s)
  }

  /** `restart(callback)`: `stop`, whatever it reports, then `start`. */
  function Restart(s: State): (st: Step)
    ensures st.outcome == Ok
    ensures st.next.running && st.next.teardownHook && st.next.port == s.port
    ensures st.next.armedTts == (if s.running then [] else s.armedTts) + [DEFAULT_TTS]
  {
    Start(Stop(s).next)
  }

  /** `stop` is idempotent: a second call reports `AlreadyStopped` and changes nothing. */
  lemma StopIdempotent(s: State)
    ensures var first := Stop(s); Stop(first.next) == Step(AlreadyStopped, first.next)
  {
  }

  /** A successful `start` followed by `start` reports the conflict on the same port. */
  lemma SecondStartRejected(s: State)
    requires !s.running
    ensures var started := Start(s).next;
      Start(started) == Step(AlreadyRunning(ServerAlreadyRunningException(s.port)), started)
  {
  }

  /**
   * `start` and `stop` are partners: from a stopped driver with no armed
   * timer, starting then stopping gives back the same driver, except that
   * the teardown hook is now registered.
   */
  lemma StartThenStop(s: State)
    requires !s.running && s.armedTts == []
    ensures Stop(Start(s).next) == Step(Ok, s.(teardownHook := true))
  {
  }

  /** The lifecycle operations a caller can issue, one per driver method. */
  datatype Op =
    | SetPortOp(port: int)
    | StartOp
    | StopOp
    | RestartOp
    | TriggerOnTtsExpiredOp(tts: int)
    | RegisterTeardownHookOp

  /** The state one operation leaves behind. */
  function Next(s: State, op: Op): State
  {
    match op
    case SetPortOp(p) => SetPort(s, p)
    case StartOp => Start(s).next
    case StopOp => Stop(s).next
    case RestartOp => Restart(s).next
    case TriggerOnTtsExpiredOp(tts) => TriggerOnTtsExpired(s, tts)
    case RegisterTeardownHookOp => RegisterTeardownHook(s)
  }

  /** The state after a sequence of operations, applied first to last. */
  function Run(s: State, ops: seq<Op>): State
    decreases |ops|
  {
    if ops == [] then s else Run(Next(s, ops[0]), ops[1..])
  }

  /** Every operation keeps a running driver's teardown hook registered. */
  lemma NextKeepsHookCoversRun(s: State, op: Op)
    requires HookCoversRun(s)
    ensures HookCoversRun(Next(s, op))
  {
  }

  /** A driver whose running implies a registered hook keeps that property through any run. */
  lemma {:induction false} RunKeepsHookCoversRun(s: State, ops: seq<Op>)
    requires HookCoversRun(s)
    ensures HookCoversRun(Run(s, ops))
    decreases |ops|
  {
    if ops != [] {
      NextKeepsHookCoversRun(s, ops[0]);
      RunKeepsHookCoversRun(Next(s, ops[0]), ops[1..]);
    }
  }

  /** Once registered, the teardown hook is never unregistered. */
  lemma {:induction false} HookStaysRegistered(s: State, ops: seq<Op>)
    requires s.teardownHook
    ensures Run(s, ops).teardownHook
    decreases |ops|
  {
    if ops != [] {
      HookStaysRegistered(Next(s, ops[0]), ops[1..]);
    }
  }

  /**
   * The timers a driver arms through its lifecycle methods alone: one
   * `DEFAULT_TTS` timer while running, none while stopped.
   */
  predicate OneTimerWhileRunning(s: State)
  {
    s.armedTts == (if s.running then [DEFAULT_TTS] else [])
  }

  /** Whether no operation of `ops` arms a timer directly. */
  predicate NoDirectTrigger(ops: seq<Op>)
  {
    forall i :: 0 <= i < |ops| ==> !ops[i].TriggerOnTtsExpiredOp?
  }

  /**
   * Without direct `_triggerOnTtsExpired` calls, a driver holds exactly one
   * armed timer while it runs and none while it is stopped.
   */
  lemma {:induction false} RunKeepsOneTimerWhileRunning(s: State, ops: seq<Op>)
    requires OneTimerWhileRunning(s) && NoDirectTrigger(ops)
    ensures OneTimerWhileRunning(Run(s, ops))
    decreases |ops|
  {
    if ops != [] {
      assert !ops[0].TriggerOnTtsExpiredOp?;
      assert OneTimerWhileRunning(Next(s, ops[0]));
      assert NoDirectTrigger(ops[1..]) by {
        forall i | 0 <= i < |ops[1..]| ensures !ops[1..][i].TriggerOnTtsExpiredOp? {
          assert ops[1..][i] == ops[i + 1];
        }
      }
      RunKeepsOneTimerWhileRunning(Next(s, ops[0]), ops[1..]);
    }
  }

  /** The port a sequence of operations leaves: the last one set, else the one it started with. */
  function LastPortSet(port: int, ops: seq<Op>): int
    decreases |ops|
  {
    if ops == [] then port
    else LastPortSet(if ops[0].SetPortOp? then ops[0].port else port, ops[1..])
  }

  /** Only the `port` setter moves the port: after any run it is the last value set. */
  lemma {:induction false} PortIsLastSet(s: State, ops: seq<Op>)
    ensures Run(s, ops).port == LastPortSet(s.port, ops)
    decreases |ops|
  {
    if ops != [] {
      PortIsLastSet(Next(s, ops[0]), ops[1..]);
    }
  }

  /** Running after a run: decided by the last `start`, `restart` or `stop`, if any. */
  function RunningAfter(running: bool, ops: seq<Op>): bool
    decreases |ops|
  {
    if ops == [] then running
    else
      var r := match ops[0]
        case StartOp => true
        case RestartOp => true
        case StopOp => false
        case _ => running;
      RunningAfter(r, ops[1..])
  }

  /** `running` is true exactly after a `start` or `restart` not followed by a `stop`. */
  lemma {:induction false} RunningIsLastLifecycleCall(s: State, ops: seq<Op>)
    ensures Run(s, ops).running == RunningAfter(s.running, ops)
    decreases |ops|
  {
    if ops != [] {
      RunningIsLastLifecycleCall(Next(s, ops[0]), ops[1..]);
    }
  }
}
