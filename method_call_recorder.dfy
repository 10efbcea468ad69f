/**
 * MethodCallRecorder: three thread-local slots, the proxy entry point, the interceptors that
 * fill the slots, the getters that read them and `reset`. Each `ThreadLocal` is a map from
 * the calling thread to the value it holds; a thread with no entry sees `null`. Every
 * operation takes the id of the thread that runs it and touches that thread's entries only.
 */
module MethodCallRecorder {
  import opened Wrappers
  import opened RecorderSpec

  class Recorder {
    /** `TypeUtils.getDefaultValue`, a pure function of the return type not modelled here. */
    const defaultValue: JType -> Value
    /** `ByteBuddyProxyCreator.create(cls, MethodCallInterceptor.class)`, not modelled here. */
    const proxyCreator: string -> Value

    var lastTarget: map<ThreadId, Value>
    var lastMethod: map<ThreadId, Method>
    var lastArgs: map<ThreadId, seq<Value>>

    /** A stored target is never `null`: `createProxy(null)` throws before storing it. */
    ghost predicate Valid()
      reads this
    {
      forall t :: t in lastTarget ==> lastTarget[t] != Null
    }

    /** The slots thread `t` sees. */
    function Slots(t: ThreadId): (s: SlotSet)
      reads this
      ensures Valid() ==> NoNullTarget(s)
    {
      SlotSet(Lookup(lastTarget, t), Lookup(lastMethod, t), Lookup(lastArgs, t))
    }

    /** The recorder as class loading leaves it: every slot of every thread is unset. */
    constructor (defaultValue: JType -> Value, proxyCreator: string -> Value)
      ensures Valid()
      ensures this.defaultValue == defaultValue && this.proxyCreator == proxyCreator
      ensures lastTarget == map[] && lastMethod == map[] && lastArgs == map[]
      ensures forall t :: Slots(t) == Unset
    {
      this.defaultValue := defaultValue;
      this.proxyCreator := proxyCreator;
      lastTarget, lastMethod, lastArgs := map[], map[], map[];
    }

    /**
     * `createProxy(target)` on thread `t`: the proxy for the target's class is returned and
     * the target stored; a null target throws `NullPointerException` and stores nothing.
     */
    method CreateProxy(t: ThreadId, target: Value) returns (r: Result<Value, Error>)
      requires Valid()
      modifies this
      ensures Valid()
      ensures target == Null ==> r == Failure(NullPointer)
      ensures target != Null ==> r == Success(proxyCreator(ClassOf(target)))
      ensures lastTarget == if target == Null then old(lastTarget) else old(lastTarget)[t := target]
      ensures lastMethod == old(lastMethod) && lastArgs == old(lastArgs)
      ensures Slots(t) == Step(old(Slots(t)), Op.CreateProxy(target))
      ensures forall u :: u != t ==> Slots(u) == old(Slots(u))
    {
      if target == Null {
        return Failure(NullPointer);
      }
      var proxy := proxyCreator(ClassOf(target));
      lastTarget := lastTarget[t := target];
      r := Success(proxy);
    }

    /**
     * `MethodCallInterceptor.interceptExecutionDetails(m, args)` on thread `t`: records the
     * call and returns the default value of its return type; the target slot is untouched.
     */
    method InterceptExecutionDetails(t: ThreadId, m: Method, args: seq<Value>) returns (r: Value)
      requires Valid()
      modifies this
      ensures Valid()
      ensures r == defaultValue(m.returnType)
      ensures lastMethod == old(lastMethod)[t := m] && lastArgs == old(lastArgs)[t := args]
      ensures lastTarget == old(lastTarget)
      ensures Slots(t) == Step(old(Slots(t)), Intercept(m, args))
      ensures forall u :: u != t ==> Slots(u) == old(Slots(u))
    {
      lastMethod := lastMethod[t := m];
      lastArgs := lastArgs[t := args];
      r := defaultValue(m.returnType);
    }

    /**
     * `invocationHandler.invoke(proxy, m, args)` on thread `t`: records the call unless it is
     * `Object.finalize`; either way returns the default value of the return type. `args` is
     * `None` when the caller passes `null`, which clears the args entry as `set(null)` does.
     */
    method Invoke(t: ThreadId, proxy: Value, m: Method, args: Option<seq<Value>>) returns (r: Value)
      requires Valid()
      modifies this
      ensures Valid()
      ensures r == defaultValue(m.returnType)
      ensures !ShouldBeRecorded(m) ==>
        lastTarget == old(lastTarget) && lastMethod == old(lastMethod) && lastArgs == old(lastArgs)
      ensures ShouldBeRecorded(m) ==> lastMethod == old(lastMethod)[t := m]
      ensures ShouldBeRecorded(m) ==>
        lastArgs == if args.Some? then old(lastArgs)[t := args.value] else old(lastArgs) - {t}
      ensures lastTarget == old(lastTarget)
      ensures Slots(t) == Step(old(Slots(t)), Op.Invoke(m, args))
      ensures forall u :: u != t ==> Slots(u) == old(Slots(u))
    {
      if ShouldBeRecorded(m) {
        lastMethod := lastMethod[t := m];
        match args
        case Some(a) => lastArgs := lastArgs[t := a];
        case None => lastArgs := lastArgs - {t};
      }
      r := defaultValue(m.returnType);
    }

    /** `getLastTarget()` on thread `t`: throws `IllegalStateException` when nothing is stored. */
    method GetLastTarget(t: ThreadId) returns (r: Result<Value, Error>)
      requires Valid()
      ensures r == LastTarget(Slots(t))
      ensures r.Success? <==> t in lastTarget
      ensures r.Success? ==> r.value == lastTarget[t] && r.value != Null
    {
      var target := if t in lastTarget then lastTarget[t] else Null;
      if target == Null {
        return Failure(IllegalState(NoMethodCallRecordedMessage));
      }
      r := Success(target);
    }

    /** `getLastMethod()` on thread `t`: throws `IllegalStateException` when no call is stored. */
    method GetLastMethod(t: ThreadId) returns (r: Result<Method, Error>)
      ensures r == LastMethod(Slots(t))
      ensures r.Success? <==> t in lastMethod
      ensures r.Success? ==> r.value == lastMethod[t]
    {
      var m := Lookup(lastMethod, t);
      if m.None? {
        return Failure(IllegalState(NoMethodCallRecordedMessage));
      }
      r := Success(m.value);
    }

    /**
     * `getLastArgs()` on thread `t`. Like the source, it throws only when the TARGET entry is
     * missing; otherwise it returns the args entry, `null` (None) when there is none.
     */
    method GetLastArgs(t: ThreadId) returns (r: Result<Option<seq<Value>>, Error>)
      requires Valid()
      ensures r == LastArgs(Slots(t))
      ensures r.Success? <==> t in lastTarget
      ensures r.Success? ==> r.value == Lookup(lastArgs, t)
    {
      var target := if t in lastTarget then lastTarget[t] else Null;
      if target == Null {
        return Failure(IllegalState(NoMethodCallRecordedMessage));
      }
      r := Success(Lookup(lastArgs, t));
    }

    /** `reset()` on thread `t`: removes all three of its entries. */
    method Reset(t: ThreadId)
      requires Valid()
      modifies this
      ensures Valid()
      ensures lastTarget == old(lastTarget) - {t}
      ensures lastMethod == old(lastMethod) - {t}
      ensures lastArgs == old(lastArgs) - {t}
      ensures Slots(t) == Unset
      ensures forall u :: u != t ==> Slots(u) == old(Slots(u))
    {
      lastTarget := lastTarget - {t};
      lastMethod := lastMethod - {t};
      lastArgs := lastArgs - {t};
    }
  }

  /**
   * A caller's view: record `person.getAge()` on thread 0, read it back, reset, and see
   * that thread 1 never observes any of it.
   */
  method GetAgeScenario()
  {
    var rec := new Recorder(
      t => if t == Primitive("int") then Int(0) else Null,
      cls => Ref(cls + "$ByteBuddy", 0));
    var person := Ref("Person", 1);
    var getAge := Method("Person", "getAge", [], Primitive("int"));

    var none := rec.GetLastMethod(0);
    assert none.Failure?;

    var proxy := rec.CreateProxy(0, person);
    assert proxy.Success?;
    var age := rec.InterceptExecutionDetails(0, getAge, []);
    assert age == Int(0);

    var target := rec.GetLastTarget(0);
    var m := rec.GetLastMethod(0);
    var args := rec.GetLastArgs(0);
    assert target == Success(person);
    assert m.Success? && m.value.name == "getAge";
    assert args == Success(Some([]));

    var elsewhere := rec.GetLastMethod(1);
    assert elsewhere.Failure?;

    rec.Reset(0);
    target := rec.GetLastTarget(0);
    m := rec.GetLastMethod(0);
    args := rec.GetLastArgs(0);
    assert target.Failure? && m.Failure? && args.Failure?;
  }
}
