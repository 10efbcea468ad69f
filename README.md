# MethodCallRecorder, modelled in Dafny

Awaitility's `MethodCallRecorder` records a call made on a proxy so that the polling engine
can replay it later. `createProxy(target)` returns a stand-in for `target` and stores
`target` in a thread-local slot. Every method called on the stand-in goes to an interceptor.
The interceptor stores the method and its arguments in two more thread-local slots and
returns the default value of the method's return type. The method body never runs. The
getters `getLastTarget`, `getLastMethod` and `getLastArgs` read the slots back. Each one
throws `IllegalStateException` when its guarding slot is empty. `reset` clears all three
slots of the calling thread.

The project has four modules:

- `Wrappers` (`wrappers.dfy`): `Option`, `Result` (a value or a thrown exception) and
  `Lookup` on maps. Java's `null` has two encodings:
  - in a slot, and in the method and argument-array references, it is `None`;
  - as a Java value (a target, an argument element, the parameter of `createProxy(null)`)
    it is `Value.Null`.

  So a target slot could hold `Some(Null)`. No operation stores it, and the getters treat it
  as unset, as Java's `null` check does (`HasTarget`).
- `RecorderSpec` (`recorder_spec.dfy`): one thread's three slots as a value (`SlotSet`). It
  says what every operation does to them (`CreateProxyStep`, `InterceptStep`, `InvokeStep`,
  `Step`) and what the getters return (`LastTarget`, `LastMethod`, `LastArgs`). It also
  holds the `finalize` filter `ShouldBeRecorded`.
- `RecorderTraces` (`recorder_traces.dfy`): runs of operations. It proves that the last write
  wins, that `reset` forgets everything, that the getters change nothing, and that threads
  are isolated from each other under any interleaving.
- `MethodCallRecorder` (`method_call_recorder.dfy`): the class `Recorder`. Each of its three
  fields is a `map<ThreadId, _>`, one per `ThreadLocal`. A thread without an entry sees
  `null`. Each method takes the id of the calling thread and updates that thread's entries
  in place. The methods that change state give the new maps outright and say that every
  other thread's slots are unchanged. `CreateProxy`, `InterceptExecutionDetails` and `Invoke`
  also tie the calling thread's slots to `RecorderSpec.Step`, and `Reset` leaves them `Unset`.
  The getters have no `modifies` clause, so they change nothing. Each ties its result to
  `LastTarget`, `LastMethod` or `LastArgs` of the calling thread's slots.
  `GetAgeScenario` is a client that records `person.getAge()` and reads it back.

`TypeUtils.getDefaultValue` and `ByteBuddyProxyCreator.create` are calls into code outside
this model. They are the constant fields `defaultValue` and `proxyCreator` of `Recorder`.
These are arbitrary functions handed to the constructor.

The guard of `getLastArgs` is kept as written: it checks the *target* slot and not the args
slot. `ArgsGuardIsTargetSlot` and `StaleCallAfterNewProxy` show what follows from that:
- with only a target stored, it returns `null`;
- with only a call stored, it throws;
- after a second `createProxy`, it returns the arguments of the earlier call.

The model follows the code in three places a reader might not expect:
- `getLastTarget` succeeds as soon as a target is stored, whether or not a call was
  intercepted.
- `createProxy(null)` throws `NullPointerException` at `target.getClass()` before it stores
  anything. So a stored target is never `null` (`Recorder.Valid`).
- The reflective `invoke` may receive `null` arguments. It then stores `null` in the args
  slot.

Two handlers record calls. `createProxy` routes each call on its proxy to
`MethodCallInterceptor`, which has no `finalize` filter (`InterceptExecutionDetails`). The
filtering `invocationHandler.invoke` (`Invoke`) is a second, private handler that nothing in
the file hands to a proxy. So `FinalizeIsNeverRecorded` is about `invoke` only: a `finalize`
call reaching the interceptor is recorded like any other call.

## Model

| member | source | states |
|---|---|---|
| `RecorderSpec.ShouldBeRecorded` | awaitility/src/main/java/org/awaitility/core/MethodCallRecorder.java:46-48 | false exactly for a method declared in `java.lang.Object` and named `finalize` |
| `RecorderSpec.CreateProxyStep` | awaitility/src/main/java/org/awaitility/core/MethodCallRecorder.java:70-74 | a non-null target becomes the target slot; a null target changes nothing; the method and args slots never change |
| `RecorderSpec.InterceptStep` | awaitility/src/main/java/org/awaitility/core/MethodCallRecorder.java:57-61 | the method slot becomes exactly `m` and the args slot exactly `args`; the target slot is unchanged |
| `RecorderSpec.InvokeStep` | awaitility/src/main/java/org/awaitility/core/MethodCallRecorder.java:38-48 | `Object.finalize` leaves every slot unchanged; any other method with non-null args does exactly what the interceptor does; with null args the args slot becomes null |
| `RecorderSpec.LastTarget` | awaitility/src/main/java/org/awaitility/core/MethodCallRecorder.java:81-87 | fails with the "no method call recorded" error exactly when the target slot is unset or holds null; otherwise returns the slot's non-null value |
| `RecorderSpec.LastMethod` | awaitility/src/main/java/org/awaitility/core/MethodCallRecorder.java:94-100 | fails with the "no method call recorded" error exactly when the method slot is unset; otherwise returns the slot's value |
| `RecorderSpec.LastArgs` | awaitility/src/main/java/org/awaitility/core/MethodCallRecorder.java:107-113 | fails exactly when the *target* slot is unset or holds null; otherwise returns the args slot, which may be null |
| `RecorderSpec.Step` | awaitility/src/main/java/org/awaitility/core/MethodCallRecorder.java:81-122 | the getters leave the slots unchanged; reset leaves all three unset; no operation stores a null target |
| `RecorderTraces.RunKeepsNoNullTarget` | awaitility/src/main/java/org/awaitility/core/MethodCallRecorder.java:70-74 | no sequence of operations leads to a null target in the slot |
| `RecorderTraces.QueriesChangeNothing` | awaitility/src/main/java/org/awaitility/core/MethodCallRecorder.java:81-113 | any run of getters leaves all three slots as they were |
| `RecorderTraces.RepeatedReadsAgree` | awaitility/src/main/java/org/awaitility/core/MethodCallRecorder.java:81-113 | with only reads in between, each getter gives the same outcome again |
| `RecorderTraces.CallSurvives` | awaitility/src/main/java/org/awaitility/core/MethodCallRecorder.java:57-61 | operations that neither record a call nor reset keep the method and args slots |
| `RecorderTraces.TargetSurvives` | awaitility/src/main/java/org/awaitility/core/MethodCallRecorder.java:70-74 | operations that neither set a target nor reset keep the target slot |
| `RecorderTraces.LastCallWins` | awaitility/src/main/java/org/awaitility/core/MethodCallRecorder.java:58-59 | after any history, intercepting `m(args)` and then doing nothing that records or resets leaves `getLastMethod` = `m` and the args slot = `args` |
| `RecorderTraces.OverwriteErasesFirstCall` | awaitility/src/main/java/org/awaitility/core/MethodCallRecorder.java:58-59 | intercepting `m1(a1)` then `m2(a2)` gives the same slots as intercepting `m2(a2)` alone |
| `RecorderTraces.LastTargetWins` | awaitility/src/main/java/org/awaitility/core/MethodCallRecorder.java:70-87 | `createProxy(t)` keeps the method and args slots; afterwards `getLastTarget` gives `t` until another target is set or a reset happens |
| `RecorderTraces.RecordThenRead` | awaitility/src/main/java/org/awaitility/core/MethodCallRecorder.java:57-113 | after any history, `createProxy(target)` then a call `m(args)` make the getters give `target`, `m` and `args` |
| `RecorderTraces.ResetForgets` | awaitility/src/main/java/org/awaitility/core/MethodCallRecorder.java:118-122 | whatever ran before a reset, the slots after it are those that the later operations produce from unset slots |
| `RecorderTraces.UnsetUntilRecorded` | awaitility/src/main/java/org/awaitility/core/MethodCallRecorder.java:118-122 | unset slots stay unset until a non-null target is set or a call is recorded |
| `RecorderTraces.GettersFailAfterReset` | awaitility/src/main/java/org/awaitility/core/MethodCallRecorder.java:81-122 | after a reset all three getters fail until a new `createProxy` or a recorded call |
| `RecorderTraces.FinalizeIsNeverRecorded` | awaitility/src/main/java/org/awaitility/core/MethodCallRecorder.java:39-48 | any number of `invoke` calls of `Object.finalize` leave the slots unchanged (the interceptor used by `createProxy` does not filter) |
| `RecorderTraces.ArgsGuardIsTargetSlot` | awaitility/src/main/java/org/awaitility/core/MethodCallRecorder.java:107-113 | with only a target stored, `getLastArgs` returns null while `getLastMethod` fails; with only a call stored, `getLastMethod` succeeds while `getLastArgs` fails |
| `RecorderTraces.StaleCallAfterNewProxy` | awaitility/src/main/java/org/awaitility/core/MethodCallRecorder.java:70-113 | after `createProxy(t1)`, a call `m(args)` and `createProxy(t2)`, the getters give `t2` together with the old `m` and `args` |
| `RecorderTraces.Isolation` | awaitility/src/main/java/org/awaitility/core/MethodCallRecorder.java:33-35 | under any interleaving of threads, a thread's slots are those its own operations alone produce |
| `RecorderTraces.OtherThreadsInvisible` | awaitility/src/main/java/org/awaitility/core/MethodCallRecorder.java:33-35 | operations of other threads leave a thread's slots exactly as they were |
| `MethodCallRecorder.Recorder.constructor` | awaitility/src/main/java/org/awaitility/core/MethodCallRecorder.java:33-35 | every thread starts with all three slots unset |
| `MethodCallRecorder.Recorder.CreateProxy` | awaitility/src/main/java/org/awaitility/core/MethodCallRecorder.java:70-74 | returns the proxy for the target's class and stores the target for the calling thread only; a null target throws `NullPointerException` and stores nothing; the method and args maps are unchanged |
| `MethodCallRecorder.Recorder.InterceptExecutionDetails` | awaitility/src/main/java/org/awaitility/core/MethodCallRecorder.java:57-61 | stores `m` and `args` for the calling thread, leaves the target map and other threads unchanged, and returns `defaultValue(m.returnType)` |
| `MethodCallRecorder.Recorder.Invoke` | awaitility/src/main/java/org/awaitility/core/MethodCallRecorder.java:38-48 | changes nothing for `Object.finalize`; otherwise stores the call like the interceptor (null args clear the args entry); always returns `defaultValue(m.returnType)` |
| `MethodCallRecorder.Recorder.GetLastTarget` | awaitility/src/main/java/org/awaitility/core/MethodCallRecorder.java:81-87 | changes nothing; succeeds exactly when the calling thread has a target, and returns that non-null target |
| `MethodCallRecorder.Recorder.GetLastMethod` | awaitility/src/main/java/org/awaitility/core/MethodCallRecorder.java:94-100 | changes nothing; succeeds exactly when the calling thread has a method entry, and returns it |
| `MethodCallRecorder.Recorder.GetLastArgs` | awaitility/src/main/java/org/awaitility/core/MethodCallRecorder.java:107-113 | changes nothing; succeeds exactly when the calling thread has a *target* entry, and returns its args entry or null |
| `MethodCallRecorder.Recorder.Reset` | awaitility/src/main/java/org/awaitility/core/MethodCallRecorder.java:118-122 | removes the calling thread's three entries and no others |

## Left out

- Proxy synthesis (`ByteBuddyProxyCreator.create`) is a foreign bytecode-generation call. It is the uninterpreted `proxyCreator` of the target's class name. Its failure on a non-extensible class is not modelled.
- Proxy identity: in Java every proxy is a new object. Here two proxies for the same class are equal values. Nothing in the recorder depends on which proxy was created.
- The routing of calls on a proxy to the interceptor happens in the proxying library. Here a call is the separate operation `InterceptExecutionDetails` (or `Invoke`), issued by the same thread.
- `TypeUtils.getDefaultValue` is not part of this model. It is the uninterpreted pure function `defaultValue` of the return type.
- Reflection and the ByteBuddy annotations (`@RuntimeType`, `@Origin`, `@AllArguments`) are left out. `java.lang.reflect.Method` is the value datatype `Method` and is compared by value, not by identity.
- The `Object[]` arguments are stored by reference in Java, so a caller could still change them after the call. The model stores an immutable `seq<Value>`.
- Threads never run at the same time here. `ThreadLocal` is a map keyed by thread id. Events from several threads run in one interleaved order (`RecorderTraces.RunAll`). Releasing a thread's entries when the thread ends is not modelled.
- `ThreadLocal.set(null)` is modelled as removing the entry. The two are indistinguishable through `get()`, which is all the recorder uses.
- Only the message of `IllegalStateException` is kept, and only the kinds of the two exceptions.
