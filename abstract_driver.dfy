/**
 * AbstractDriver: one driver object whose fields `_running`, `_port` and
 * `_teardownHook` the lifecycle methods update in place.  Each method that
 * takes a node-style callback returns the callback's `Outcome` instead.
 * The concrete service a subclass starts and stops always succeeds here.
 */
module Driver {
  import opened Lifecycle

  class AbstractDriver {
    var running: bool
    var port: int
    var teardownHook: bool
    /** TTS windows armed and not yet fired, oldest first. */
    var armedTts: seq<int>

    /** The driver's fields as a `Lifecycle.State`. */
    function Snapshot(): State
      reads this
    {
      State(running, port, teardownHook, armedTts)
    }

    /** Object invariant: whenever the driver runs, its teardown hook is registered. */
    ghost predicate Valid()
      reads this
    {
      HookCoversRun(Snapshot())
    }

    /** A fresh driver: stopped, no teardown hook, default port, no timer. */
    constructor ()
      ensures Valid()
      ensures !running && !teardownHook && port == DEFAULT_PORT && armedTts == []
    {
      running := false;
      port := DEFAULT_PORT;
      teardownHook := false;
      armedTts := [];
    }

    /** The `port` setter. */
    method SetPort(p: int)
      requires Valid()
      modifies this
      ensures Valid()
      ensures Snapshot() == Lifecycle.SetPort(old(Snapshot()), p)
    {
      port := p;
    }

    /** `_registerTeardownHook()`: returns the driver itself. */
    method RegisterTeardownHook() returns (self: AbstractDriver)
      modifies this
      ensures self == this
      ensures Snapshot() == Lifecycle.RegisterTeardownHook(old(Snapshot()))
      ensures old(Valid()) ==> Valid()
    {
      if !teardownHook {
        teardownHook := true;
      }
      self := this;
    }

    /** `_triggerOnTtsExpired(tts, callback)`: arms a timer; nothing fires now. */
    method TriggerOnTtsExpired(tts: int)
      requires Valid()
      modifies this
      ensures Valid()
      ensures Snapshot() == Lifecycle.TriggerOnTtsExpired(old(Snapshot()), tts)
    {
      armedTts := armedTts + [tts];
    }

    /** `start(callback)`. */
    method Start() returns (r: Outcome)
      requires Valid()
      modifies this
      ensures Valid()
      ensures Step(r, Snapshot()) == Lifecycle.Start(old(Snapshot()))
    {
      if running {
        r := AlreadyRunning(ServerAlreadyRunningException(port));
        return;
      }
      running := true;
      var _ := RegisterTeardownHook();
      TriggerOnTtsExpired(DEFAULT_TTS);
      r := Ok;
    }

    /** `stop(callback)`. */
    method Stop() returns (r: Outcome)
      requires Valid()
      modifies this
      ensures Valid()
      ensures Step(r, Snapshot()) == Lifecycle.Stop(old(Snapshot()))
    {
      if !running {
        r := AlreadyStopped;
        return;
      }
      armedTts := [];
      running := false;
      r := Ok;
    }

    /** `restart(callback)`: `stop`, its outcome ignored, then `start`. */
    method Restart() returns (r: Outcome)
      requires Valid()
      modifies this
      ensures Valid()
      ensures Step(r, Snapshot()) == Lifecycle.Restart(old(Snapshot()))
    {
      var _ := Stop();
      r := Start();
    }

    /** `throwServerTtsExceededException(name, seconds)`: always throws. */
    method ThrowServerTtsExceededException(name: string, seconds: int) returns (thrown: Outcome)
      ensures thrown.TtsExceeded?
      ensures thrown.ttsExceeded.driverName == name && thrown.ttsExceeded.seconds == seconds
    {
      thrown := TtsExceeded(ServerTtsExceededException(name, seconds));
    }
  }

  /**
   * The test suite's calls on its one shared driver, in order: set the port
   * to 8878, start, arm a 1-second TTS timer, start again, restart, stop,
   * stop again, register the teardown hook, throw the TTS exception.
   */
  method TestSuite() returns (d: AbstractDriver)
    ensures !d.running && d.port == 8878 && d.teardownHook
  {
    d := new AbstractDriver();
    assert !d.running && !d.teardownHook && d.port == DEFAULT_PORT;

    d.SetPort(8878);
    assert d.port == 8878;

    var r := d.Start();
    assert r == Ok && d.running;

    d.TriggerOnTtsExpired(1);
    assert d.running;

    r := d.Start();
    assert r.AlreadyRunning? && d.running;

    r := d.Restart();
    assert r == Ok && d.running;

    r := d.Stop();
    assert r == Ok && !d.running;

    r := d.Stop();
    assert r == AlreadyStopped && !d.running;

    var self := d.RegisterTeardownHook();
    assert self == d && self.port == 8878 && !self.running && self.teardownHook;

    var thrown := d.ThrowServerTtsExceededException("driver", 1);
    assert thrown.TtsExceeded?;
  }
}
