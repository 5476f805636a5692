# Local driver lifecycle and ObjectVector, in Dafny

This project models two small components of the deep-framework repository:

- **AbstractDriver** (deep-db, `Local/Driver/AbstractDriver`). This is the lifecycle controller of a locally run service. It has two states, stopped and running. Its fields are `_running`, `_port` and `_teardownHook`, plus the time-to-stop (TTS) timers it has armed. The operations are `start`, `stop`, `restart`, the `port` setter, `_triggerOnTtsExpired`, `_registerTeardownHook` and `throwServerTtsExceededException`.
  - `lifecycle.dfy` (module `Lifecycle`) gives each operation as a pure function from a state to a `Step`. A `Step` is the outcome the node-style callback would receive plus the next state. The lemmas in this file relate the operations and cover arbitrary sequences of calls.
  - `abstract_driver.dfy` (module `Driver`) is the driver as a class. Its methods update the fields in place and return the callback's outcome. Each method's postcondition ties the new fields and the outcome to the matching `Lifecycle` function. `Driver.TestSuite` replays the test suite's calls on one shared driver.
- **ObjectVector** (deep-core, `Generic/ObjectVector`). `new ObjectVector(proto, ...items)` accepts its items only if every one is an instance of `proto`. It then exposes them as `collection` in argument order. Otherwise it throws and no vector exists. This is `object_vector.dfy` (module `ObjectVector`).

Callback outcomes become the datatype `Lifecycle.Outcome`:
- `Ok` is the `(null, null)` call.
- `AlreadyRunning` carries a `ServerAlreadyRunningException`.
- `AlreadyStopped` is the single-argument `(null)` call that `stop` makes on a stopped driver.
- `TtsExceeded` carries a `ServerTtsExceededException`.

The test suites fix only one thing about `DEFAULT_PORT` and `DEFAULT_TTS`: both are positive. They are therefore constants of the subset type `Positive` with no fixed value, so `DEFAULT_PORT > 0` and `DEFAULT_TTS > 0` hold by their type.

Each row below cites the test lines whose assertions the member models. The test suites assert nothing about when the hook is registered or about timers. The model makes three assumptions there:
- `start` registers the hook and arms a `DEFAULT_TTS` timer.
- `stop` cancels the timers.
- `restart` is `stop` then `start`.

`_triggerOnTtsExpired(1, cb)` does not call `cb`, and the next `start` still finds the driver running (src/deep-db/test/Local/Driver/AbstractDriver.js:58-81). So the model treats it as arming a timer, not as the expiry itself.

## Model

| member | source | states |
|---|---|---|
| `ObjectVector.Validate` | src/deep-core/test/Generic/ObjectVector.js:21-35 | the validation pass accepts exactly when every item, not only a prefix, is an instance of the prototype |
| `ObjectVector.New` | src/deep-core/test/Generic/ObjectVector.js:21-35 | construction succeeds if and only if all items are instances of the prototype; on success `collection` is the items in argument order |
| `ObjectVector.AnyMismatchRejects` | src/deep-core/test/Generic/ObjectVector.js:21-30 | one non-instance at any position makes construction throw, and no vector is produced |
| `ObjectVector.LastItemIsChecked` | src/deep-core/test/Generic/ObjectVector.js:10-30 | valid leading items do not save a list whose last item is invalid |
| `ObjectVector.CollectionMembersAreInstances` | src/deep-core/test/Generic/ObjectVector.js:32-35 | a built vector keeps the prototype and the length, and every element of `collection` is an instance of the prototype |
| `ObjectVector.RebuildFromCollection` | src/deep-core/test/Generic/ObjectVector.js:32-35 | building from a vector's own collection returns that vector (construction and `collection` are partners) |
| `ObjectVector.NewConcat` | src/deep-core/test/Generic/ObjectVector.js:21-35 | building from `a + b` succeeds if and only if building from `a` and from `b` both succeed, and the collection is theirs joined |
| `ObjectVector.TestSuiteScenario` | src/deep-core/test/Generic/ObjectVector.js:6-35 | with the suite's fixtures, three items throw and the two `testProto` instances give `collection == [first, second]` |
| `Lifecycle.SetPort` | src/deep-db/test/Local/Driver/AbstractDriver.js:36-39 | the setter stores exactly the given port and changes no other field |
| `Lifecycle.RegisterTeardownHook` | src/deep-db/test/Local/Driver/AbstractDriver.js:111-126 | afterwards the hook is registered; port, running and timers are unchanged; a second call changes nothing |
| `Lifecycle.TriggerOnTtsExpired` | src/deep-db/test/Local/Driver/AbstractDriver.js:58-64 | arms one timer and changes nothing else; the driver is not stopped synchronously |
| `Lifecycle.Start` | src/deep-db/test/Local/Driver/AbstractDriver.js:49-81 | the driver is running afterwards with the same port; `Ok` exactly when it was stopped; on a running driver, `ServerAlreadyRunningException` with the state unchanged; otherwise the hook is registered and a `DEFAULT_TTS` timer armed |
| `Lifecycle.Stop` | src/deep-db/test/Local/Driver/AbstractDriver.js:93-109 | the driver is stopped afterwards with the same port and hook; `Ok` on a running driver and `AlreadyStopped` on a stopped one, which is then left unchanged |
| `Lifecycle.Restart` | src/deep-db/test/Local/Driver/AbstractDriver.js:83-91 | always `Ok`, and the driver ends up running with the same port and a registered hook, whatever its prior state |
| `Lifecycle.StopIdempotent` | src/deep-db/test/Local/Driver/AbstractDriver.js:93-109 | a second `stop` reports `AlreadyStopped` and leaves the state as the first left it |
| `Lifecycle.SecondStartRejected` | src/deep-db/test/Local/Driver/AbstractDriver.js:49-81 | after a successful `start`, `start` reports the conflict on the same port and changes nothing |
| `Lifecycle.StartThenStop` | src/deep-db/test/Local/Driver/AbstractDriver.js:49-100 | `start` then `stop` returns a stopped, timer-free driver to itself, except that the hook is now registered |
| `Lifecycle.NextKeepsHookCoversRun` | src/deep-db/test/Local/Driver/AbstractDriver.js:49-126 | every operation preserves "running implies teardown hook registered" |
| `Lifecycle.RunKeepsHookCoversRun` | src/deep-db/test/Local/Driver/AbstractDriver.js:49-126 | any sequence of operations preserves "running implies teardown hook registered" |
| `Lifecycle.HookStaysRegistered` | src/deep-db/test/Local/Driver/AbstractDriver.js:111-126 | once registered, the teardown hook stays registered through any sequence of operations |
| `Lifecycle.PortIsLastSet` | src/deep-db/test/Local/Driver/AbstractDriver.js:29-126 | after any sequence of operations the port is the last value given to the setter, or the initial port if none |
| `Lifecycle.RunningIsLastLifecycleCall` | src/deep-db/test/Local/Driver/AbstractDriver.js:49-109 | after any sequence of operations the driver runs exactly when the last `start`, `restart` or `stop` was not a `stop` (or, failing any, when it ran before) |
| `Lifecycle.RunKeepsOneTimerWhileRunning` | src/deep-db/test/Local/Driver/AbstractDriver.js:49-109 | through any sequence of lifecycle calls without a direct `_triggerOnTtsExpired`, a running driver has exactly one armed `DEFAULT_TTS` timer and a stopped one has none |
| `Driver.AbstractDriver.constructor` | src/deep-db/test/Local/Driver/AbstractDriver.js:21-34 | a fresh driver is stopped, has no teardown hook, has port `DEFAULT_PORT` and has no timer |
| `Driver.AbstractDriver.SetPort` | src/deep-db/test/Local/Driver/AbstractDriver.js:36-39 | the fields after the call are those of `Lifecycle.SetPort` applied to the fields before it |
| `Driver.AbstractDriver.RegisterTeardownHook` | src/deep-db/test/Local/Driver/AbstractDriver.js:111-126 | returns the driver itself; its fields become those of `Lifecycle.RegisterTeardownHook` |
| `Driver.AbstractDriver.TriggerOnTtsExpired` | src/deep-db/test/Local/Driver/AbstractDriver.js:58-64 | the fields become those of `Lifecycle.TriggerOnTtsExpired`; there is no synchronous result |
| `Driver.AbstractDriver.Start` | src/deep-db/test/Local/Driver/AbstractDriver.js:49-81 | the outcome and new fields are `Lifecycle.Start` of the old fields, and the object invariant holds |
| `Driver.AbstractDriver.Stop` | src/deep-db/test/Local/Driver/AbstractDriver.js:93-109 | the outcome and new fields are `Lifecycle.Stop` of the old fields, and the object invariant holds |
| `Driver.AbstractDriver.Restart` | src/deep-db/test/Local/Driver/AbstractDriver.js:83-91 | the outcome and new fields are `Lifecycle.Restart` of the old fields, through a `Stop` call and then a `Start` call |
| `Driver.AbstractDriver.ThrowServerTtsExceededException` | src/deep-db/test/Local/Driver/AbstractDriver.js:128-140 | always fails, with a `ServerTtsExceededException` carrying the given driver name and seconds |
| `Driver.TestSuite` | src/deep-db/test/Local/Driver/AbstractDriver.js:14-140 | the suite's call sequence on one fresh driver gives the asserted outcome at each step and ends stopped, on port 8878, with the hook registered |

## Left out

- The firing of a TTS timer (an event-loop callback) is not modelled. Only the arming and cancelling of timers is. Automatic stop on expiry, and the `TtsExceeded` outcome reaching the callback passed to `_triggerOnTtsExpired`, are therefore not modelled.
- Renewing a TTS timer is not modelled; no test exercises it.
- Registering the exit handler with the host process is not modelled. Neither is stopping the driver at process exit. Only the `_teardownHook` flag is kept.
- The concrete service a subclass starts and stops (`AbstractDriverMock` in the tests) always succeeds. Failures of the service's own start or stop are not modelled.
- Exception classes, their messages and `instanceof` against them appear only as the tags of `Outcome`. The `Error` thrown by `ObjectVector` is the `None` result and carries nothing.
- JavaScript prototypes and `new` appear only as a list of constructors on an object's prototype chain. `instanceof` is membership in that list.
- The implementation modules `lib.compiled/Local/Driver/AbstractDriver` and `lib.compiled/Generic/ObjectVector` are not part of this model. Their behaviour is taken from the two test suites.
- The tests show no port range check, so none is modelled.
- Direct `_triggerOnTtsExpired` calls, such as the tests make, can arm extra timers, also on a stopped driver, and the model allows this. So "at most one timer while running, none while stopped" holds only for runs without such calls (`Lifecycle.RunKeepsOneTimerWhileRunning`). A direct call on a running driver leaves two armed timers, and a timer armed on a stopped driver survives `stop`.
