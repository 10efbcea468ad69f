/**
 * Sequences of recorder operations: what survives them (last write wins, reset forgets,
 * getters change nothing) and why threads never see each other's recordings.
 */
module RecorderTraces {
  import opened Wrappers
  import opened RecorderSpec

  /** The slots after running `ops` in order, starting from `s`. */
  function Run(s: SlotSet, ops: seq<Op>): SlotSet
    decreases |ops|
  {
    if ops == [] then s else Run(Step(s, ops[0]), ops[1..])
  }

  /** Operations that write the method and args slots: interceptions and recorded invocations. */
  predicate RecordsCall(op: Op) {
    op.Intercept? || (op.Invoke? && ShouldBeRecorded(op.invokeMethod))
  }

  /** Operations that write the target slot with a value: `createProxy` of a non-null target. */
  predicate SetsTarget(op: Op) {
    op.CreateProxy? && op.target != Null
  }

  /** Operations that leave the method and args slots as they are. */
  predicate KeepsCall(op: Op) {
    !RecordsCall(op) && !op.Reset?
  }

  /** Operations that leave the target slot as it is. */
  predicate KeepsTarget(op: Op) {
    !SetsTarget(op) && !op.Reset?
  }

  lemma {:induction false} RunAppend(s: SlotSet, xs: seq<Op>, ys: seq<Op>)
    ensures Run(s, xs + ys) == Run(Run(s, xs), ys)
    decreases |xs|
  {
    if xs == [] {
      assert xs + ys == ys;
    } else {
      assert (xs + ys)[0] == xs[0];
      assert (xs + ys)[1..] == xs[1..] + ys;
      RunAppend(Step(s, xs[0]), xs[1..], ys);
    }
  }

  /** No slot ever holds a null target, whatever is run. */
  lemma {:induction false} RunKeepsNoNullTarget(s: SlotSet, ops: seq<Op>)
    requires NoNullTarget(s)
    ensures NoNullTarget(Run(s, ops))
    decreases |ops|
  {
    if ops != [] {
      RunKeepsNoNullTarget(Step(s, ops[0]), ops[1..]);
    }
  }

  /** The getters are read-only: any run of them leaves all three slots as they were. */
  lemma {:induction false} QueriesChangeNothing(s: SlotSet, qs: seq<Op>)
    requires forall i :: 0 <= i < |qs| ==> IsQuery(qs[i])
    ensures Run(s, qs) == s
    decreases |qs|
  {
    if qs != [] {
      QueriesChangeNothing(Step(s, qs[0]), qs[1..]);
    }
  }

  /** Reading twice in a row, with only reads between, gives the same outcome. */
  lemma RepeatedReadsAgree(s: SlotSet, qs: seq<Op>)
    requires forall i :: 0 <= i < |qs| ==> IsQuery(qs[i])
    ensures LastTarget(Run(s, qs)) == LastTarget(s)
    ensures LastMethod(Run(s, qs)) == LastMethod(s)
    ensures LastArgs(Run(s, qs)) == LastArgs(s)
  {
    QueriesChangeNothing(s, qs);
  }

  lemma {:induction false} CallSurvives(s: SlotSet, ops: seq<Op>)
    requires forall i :: 0 <= i < |ops| ==> KeepsCall(ops[i])
    ensures Run(s, ops).lastMethod == s.lastMethod
    ensures Run(s, ops).lastArgs == s.lastArgs
    decreases |ops|
  {
    if ops != [] {
      CallSurvives(Step(s, ops[0]), ops[1..]);
    }
  }

  lemma {:induction false} TargetSurvives(s: SlotSet, ops: seq<Op>)
    requires forall i :: 0 <= i < |ops| ==> KeepsTarget(ops[i])
    ensures Run(s, ops).lastTarget == s.lastTarget
    decreases |ops|
  {
    if ops != [] {
      TargetSurvives(Step(s, ops[0]), ops[1..]);
    }
  }

  /**
   * Last write wins: whatever ran before, after intercepting `m(args)` and then anything that
   * records no call and does not reset, `getLastMethod` gives `m` and the args slot holds `args`.
   */
  lemma LastCallWins(s: SlotSet, before: seq<Op>, m: Method, args: seq<Value>, after: seq<Op>)
    requires forall i :: 0 <= i < |after| ==> KeepsCall(after[i])
    ensures var s' := Run(s, before + [Intercept(m, args)] + after);
      && s'.lastMethod == Some(m) && s'.lastArgs == Some(args)
      && LastMethod(s') == Success(m)
      && (HasTarget(s') ==> LastArgs(s') == Success(Some(args)))
  {
    var mid := Run(s, before);
    RunAppend(s, before + [Intercept(m, args)], after);
    RunAppend(s, before, [Intercept(m, args)]);
    assert Run(mid, [Intercept(m, args)]) == InterceptStep(mid, m, args);
    CallSurvives(InterceptStep(mid, m, args), after);
  }

  /** Overwrite law: a second interception erases every trace of the first. */
  lemma OverwriteErasesFirstCall(s: SlotSet, m1: Method, a1: seq<Value>, m2: Method, a2: seq<Value>)
    ensures Run(s, [Intercept(m1, a1), Intercept(m2, a2)]) == Run(s, [Intercept(m2, a2)])
  {
    assert [Intercept(m1, a1), Intercept(m2, a2)][1..] == [Intercept(m2, a2)];
  }

  /**
   * After `createProxy(target)` and anything that sets no other target and does not reset,
   * `getLastTarget` gives `target`. The method and args slots are untouched by `createProxy`.
   */
  lemma LastTargetWins(s: SlotSet, before: seq<Op>, target: Value, after: seq<Op>)
    requires target != Null
    requires forall i :: 0 <= i < |after| ==> KeepsTarget(after[i])
    ensures var mid := Run(s, before);
      && Run(mid, [CreateProxy(target)]).lastMethod == mid.lastMethod
      && Run(mid, [CreateProxy(target)]).lastArgs == mid.lastArgs
    ensures var s' := Run(s, before + [CreateProxy(target)] + after);
      LastTarget(s') == Success(target)
  {
    var mid := Run(s, before);
    RunAppend(s, before + [CreateProxy(target)], after);
    RunAppend(s, before, [CreateProxy(target)]);
    assert Run(mid, [CreateProxy(target)]) == CreateProxyStep(mid, target);
    TargetSurvives(CreateProxyStep(mid, target), after);
  }

  /**
   * Recording then reading: after any history, `createProxy(target)` followed by a call
   * `m(args)` on its proxy makes the three getters give `target`, `m` and `args`.
   */
  lemma RecordThenRead(s: SlotSet, before: seq<Op>, target: Value, m: Method, args: seq<Value>)
    requires target != Null
    ensures var s' := Run(s, before + [CreateProxy(target), Intercept(m, args)]);
      && LastTarget(s') == Success(target)
      && LastMethod(s') == Success(m)
      && LastArgs(s') == Success(Some(args))
  {
    var ops := before + [CreateProxy(target), Intercept(m, args)];
    assert ops == before + [CreateProxy(target)] + [Intercept(m, args)];
    assert ops == (before + [CreateProxy(target)]) + [Intercept(m, args)] + [];
    LastTargetWins(s, before, target, [Intercept(m, args)]);
    LastCallWins(s, before + [CreateProxy(target)], m, args, []);
  }

  /** Nothing recorded before a `reset` can be observed after it. */
  lemma ResetForgets(s: SlotSet, before: seq<Op>, after: seq<Op>)
    ensures Run(s, before + [Reset] + after) == Run(Unset, after)
  {
    RunAppend(s, before + [Reset], after);
    RunAppend(s, before, [Reset]);
  }

  /** From unset slots, slots stay unset until a target is set or a call is recorded. */
  lemma {:induction false} UnsetUntilRecorded(ops: seq<Op>)
    requires forall i :: 0 <= i < |ops| ==> !SetsTarget(ops[i]) && !RecordsCall(ops[i])
    ensures Run(Unset, ops) == Unset
    decreases |ops|
  {
    if ops != [] {
      assert Step(Unset, ops[0]) == Unset;
      UnsetUntilRecorded(ops[1..]);
    }
  }

  /** Reset law: after `reset`, all three getters fail until a new `createProxy` or call. */
  lemma GettersFailAfterReset(s: SlotSet, before: seq<Op>, after: seq<Op>)
    requires forall i :: 0 <= i < |after| ==> !SetsTarget(after[i]) && !RecordsCall(after[i])
    ensures var s' := Run(s, before + [Reset] + after);
      && LastTarget(s').Failure? && LastMethod(s').Failure? && LastArgs(s').Failure?
  {
    ResetForgets(s, before, after);
    UnsetUntilRecorded(after);
  }

  /** `invoke` of `Object.finalize` changes no slot, however often it happens. */
  lemma {:induction false} FinalizeIsNeverRecorded(s: SlotSet, ops: seq<Op>)
    requires forall i :: 0 <= i < |ops| ==>
      && ops[i].Invoke?
      && ops[i].invokeMethod.declaringClass == ObjectClass
      && ops[i].invokeMethod.name == "finalize"
    ensures Run(s, ops) == s
    decreases |ops|
  {
    if ops != [] {
      FinalizeIsNeverRecorded(Step(s, ops[0]), ops[1..]);
    }
  }

  /**
   * The guard of `getLastArgs` is the target slot. So after only `createProxy` it succeeds
   * with `null` while `getLastMethod` fails; after only an interception (on a proxy created
   * before a reset) `getLastMethod` succeeds while `getLastArgs` fails.
   */
  lemma ArgsGuardIsTargetSlot(target: Value, m: Method, args: seq<Value>)
    requires target != Null
    ensures LastArgs(Run(Unset, [CreateProxy(target)])) == Success(None)
    ensures LastMethod(Run(Unset, [CreateProxy(target)])).Failure?
    ensures LastArgs(Run(Unset, [Intercept(m, args)])).Failure?
    ensures LastMethod(Run(Unset, [Intercept(m, args)])) == Success(m)
  {
  }

  /**
   * A second `createProxy` without a call on its proxy leaves the earlier call observable:
   * `getLastTarget` gives the new target while method and args are those of the old call.
   */
  lemma StaleCallAfterNewProxy(t1: Value, t2: Value, m: Method, args: seq<Value>)
    requires t1 != Null && t2 != Null
    ensures var s := Run(Unset, [CreateProxy(t1), Intercept(m, args), CreateProxy(t2)]);
      && LastTarget(s) == Success(t2)
      && LastMethod(s) == Success(m)
      && LastArgs(s) == Success(Some(args))
  {
    var ops := [CreateProxy(t1), Intercept(m, args), CreateProxy(t2)];
    var s1 := CreateProxyStep(Unset, t1);
    var s2 := InterceptStep(s1, m, args);
    assert ops[1..] == [Intercept(m, args), CreateProxy(t2)];
    assert ops[1..][1..] == [CreateProxy(t2)];
    assert Run(s2, [CreateProxy(t2)]) == CreateProxyStep(s2, t2);
    assert Run(Unset, ops) == Run(s2, [CreateProxy(t2)]);
  }

  /** An operation issued by a thread. */
  datatype Event = Event(thread: ThreadId, op: Op)

  /** The slots of every thread; a thread without an entry has unset slots. */
  type Threads = map<ThreadId, SlotSet>

  function SlotsOf(w: Threads, t: ThreadId): SlotSet {
    if t in w then w[t] else Unset
  }

  /** One event touches the issuing thread's slots only. */
  function Dispatch(w: Threads, e: Event): Threads {
    w[e.thread := Step(SlotsOf(w, e.thread), e.op)]
  }

  function RunAll(w: Threads, es: seq<Event>): Threads
    decreases |es|
  {
    if es == [] then w else RunAll(Dispatch(w, es[0]), es[1..])
  }

  /** The operations thread `t` issued, in order. */
  function OpsOf(es: seq<Event>, t: ThreadId): seq<Op>
    decreases |es|
  {
    if es == [] then []
    else (if es[0].thread == t then [es[0].op] else []) + OpsOf(es[1..], t)
  }

  /**
   * Isolation law: whatever the interleaving, a thread's slots are those that its own
   * operations alone produce; no other thread's recording is observable through them.
   */
  lemma {:induction false} Isolation(w: Threads, es: seq<Event>, t: ThreadId)
    ensures SlotsOf(RunAll(w, es), t) == Run(SlotsOf(w, t), OpsOf(es, t))
    decreases |es|
  {
    if es != [] {
      var w' := Dispatch(w, es[0]);
      Isolation(w', es[1..], t);
      if es[0].thread == t {
        var ops := [es[0].op] + OpsOf(es[1..], t);
        assert ops[0] == es[0].op && ops[1..] == OpsOf(es[1..], t);
      } else {
        assert SlotsOf(w', t) == SlotsOf(w, t);
        assert OpsOf(es, t) == [] + OpsOf(es[1..], t) == OpsOf(es[1..], t);
      }
    }
  }

  lemma {:induction false} OpsOfNone(es: seq<Event>, t: ThreadId)
    requires forall i :: 0 <= i < |es| ==> es[i].thread != t
    ensures OpsOf(es, t) == []
    decreases |es|
  {
    if es != [] {
      OpsOfNone(es[1..], t);
    }
  }

  /** Events of other threads leave a thread's slots exactly as they were. */
  lemma OtherThreadsInvisible(w: Threads, es: seq<Event>, t: ThreadId)
    requires forall i :: 0 <= i < |es| ==> es[i].thread != t
    ensures SlotsOf(RunAll(w, es), t) == SlotsOf(w, t)
  {
    Isolation(w, es, t);
    OpsOfNone(es, t);
  }
}
