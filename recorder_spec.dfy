/**
 * The per-thread state of MethodCallRecorder as a value, and what each of its operations does
 * to that state. A thread's state is its three thread-local slots: the last target, the last
 * intercepted method and the last argument array. A slot holding Java's `null` is `None`.
 */
module RecorderSpec {
  import opened Wrappers

  /** Identifies the thread on whose behalf an operation runs (the key of every ThreadLocal). */
  type ThreadId = nat

  const ObjectClass := "java.lang.Object"
  const NoMethodCallRecordedMessage := "No method call has been recorded. Perhaps the method was final?"

  /** A declared return or parameter type, as far as default values need to know it. */
  datatype JType = Void | Primitive(name: string) | Reference(name: string)

  /** Stands in for `java.lang.reflect.Method`: compared by value, not by object identity. */
  datatype Method = Method(declaringClass: string, name: string, parameterTypes: seq<JType>, returnType: JType)

  /** A Java value passed as a target or an argument, or returned by an intercepted call. */
  datatype Value = Null | Ref(cls: string, id: nat) | Int(i: int) | Bool(b: bool)

  /** The exceptions the recorder's operations can throw. */
  datatype Error = IllegalState(message: string) | NullPointer

  /** `v.getClass().getName()`; primitives reach the recorder boxed. */
  function ClassOf(v: Value): string
    requires v != Null
  {
    match v
    case Ref(cls, _) => cls
    case Int(_) => "java.lang.Integer"
    case Bool(_) => "java.lang.Boolean"
  }

  /** The three thread-local slots of one thread. */
  datatype SlotSet = SlotSet(lastTarget: Option<Value>, lastMethod: Option<Method>, lastArgs: Option<seq<Value>>)

  /** The slots of a thread that has not touched the recorder, or has just reset it. */
  const Unset := SlotSet(None, None, None)

  /** The slots never hold a null target: `createProxy(null)` throws before storing it. */
  predicate NoNullTarget(s: SlotSet) {
    s.lastTarget != Some(Null)
  }

  /**
   * The target slot as `lastTarget.get()` sees it: `null` when unset or when it holds `null`,
   * which the getters treat alike.
   */
  predicate HasTarget(s: SlotSet) {
    s.lastTarget.Some? && s.lastTarget.value != Null
  }

  /** The filter of the reflective invocation handler: everything but `Object.finalize`. */
  predicate ShouldBeRecorded(m: Method)
    ensures !ShouldBeRecorded(m) ==> m.declaringClass == ObjectClass && m.name == "finalize"
    ensures m.declaringClass == ObjectClass && m.name == "finalize" ==> !ShouldBeRecorded(m)
  {
    !(m.declaringClass == ObjectClass && m.name == "finalize")
  }

  /** `createProxy(target)` on these slots. A null target throws at `getClass()`, first. */
  function CreateProxyStep(s: SlotSet, target: Value): (s': SlotSet)
    ensures target != Null ==> s'.lastTarget == Some(target)
    ensures target == Null ==> s' == s
    ensures s'.lastMethod == s.lastMethod && s'.lastArgs == s.lastArgs
  {
    if target == Null then s else s.(lastTarget := Some(target))
  }

  /** `MethodCallInterceptor.interceptExecutionDetails(m, args)` on these slots. */
  function InterceptStep(s: SlotSet, m: Method, args: seq<Value>): (s': SlotSet)
    ensures s'.lastMethod == Some(m) && s'.lastArgs == Some(args)
    ensures s'.lastTarget == s.lastTarget
  {
    s.(lastMethod := Some(m), lastArgs := Some(args))
  }

  /**
   * `invocationHandler.invoke(proxy, m, args)` on these slots; `args` is `None` when the
   * reflective proxy passes `null` for a method without parameters.
   */
  function InvokeStep(s: SlotSet, m: Method, args: Option<seq<Value>>): (s': SlotSet)
    ensures !ShouldBeRecorded(m) ==> s' == s
    ensures ShouldBeRecorded(m) && args.Some? ==> s' == InterceptStep(s, m, args.value)
    ensures ShouldBeRecorded(m) ==> s'.lastMethod == Some(m) && s'.lastArgs == args && s'.lastTarget == s.lastTarget
  {
    if ShouldBeRecorded(m) then s.(lastMethod := Some(m), lastArgs := args) else s
  }

  /** `getLastTarget()` on these slots. */
  function LastTarget(s: SlotSet): (r: Result<Value, Error>)
    ensures r.Failure? <==> !HasTarget(s)
    ensures r.Failure? ==> r.error == IllegalState(NoMethodCallRecordedMessage)
    ensures r.Success? ==> s.lastTarget == Some(r.value) && r.value != Null
  {
    match s.lastTarget
    case None => Failure(IllegalState(NoMethodCallRecordedMessage))
    case Some(v) => if v == Null then Failure(IllegalState(NoMethodCallRecordedMessage)) else Success(v)
  }

  /** `getLastMethod()` on these slots. */
  function LastMethod(s: SlotSet): (r: Result<Method, Error>)
    ensures r.Failure? <==> s.lastMethod.None?
    ensures r.Failure? ==> r.error == IllegalState(NoMethodCallRecordedMessage)
    ensures r.Success? ==> s.lastMethod == Some(r.value)
  {
    match s.lastMethod
    case None => Failure(IllegalState(NoMethodCallRecordedMessage))
    case Some(m) => Success(m)
  }

  /**
   * `getLastArgs()` on these slots. Its guard is the TARGET slot, as in the source: with a
   * target present it returns whatever the args slot holds, `null` (None) included.
   */
  function LastArgs(s: SlotSet): (r: Result<Option<seq<Value>>, Error>)
    ensures r.Failure? <==> !HasTarget(s)
    ensures r.Failure? ==> r.error == IllegalState(NoMethodCallRecordedMessage)
    ensures r.Success? ==> r.value == s.lastArgs
  {
    if !HasTarget(s) then Failure(IllegalState(NoMethodCallRecordedMessage)) else Success(s.lastArgs)
  }

  /** The recorder's operations, issued by one thread. */
  datatype Op =
    | CreateProxy(target: Value)
    | Intercept(interceptMethod: Method, interceptArgs: seq<Value>)
    | Invoke(invokeMethod: Method, invokeArgs: Option<seq<Value>>)
    | Reset
    | GetLastTarget
    | GetLastMethod
    | GetLastArgs

  /** The three getters. */
  predicate IsQuery(op: Op) {
    op.GetLastTarget? || op.GetLastMethod? || op.GetLastArgs?
  }

  /** The slots after `op`. The getters only read; `reset` clears all three slots. */
  function Step(s: SlotSet, op: Op): (s': SlotSet)
    ensures IsQuery(op) ==> s' == s
    ensures op.Reset? ==> s' == Unset
    ensures NoNullTarget(s) ==> NoNullTarget(s')
  {
    match op
    case CreateProxy(target) => CreateProxyStep(s, target)
    case Intercept(m, args) => InterceptStep(s, m, args)
    case Invoke(m, args) => InvokeStep(s, m, args)
    case Reset => Unset
    case GetLastTarget => s
    case GetLastMethod => s
    case GetLastArgs => s
  }
}
