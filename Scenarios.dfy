/**
 * Whole-object scenarios: each method builds its activities in a fresh
 * engine, drives them through the public operations, and states what the
 * caller observes.
 */
module Scenarios {
  import opened Errors
  import opened ObjectEx
  import opened Specifications
  import opened ActivityModel
  import opened Runtime
  import opened Builder

  /** An activity runs once: a second `Run()` throws InvalidOperationException. */
  method RunTwice() returns (first: Outcome, second: Outcome)
    ensures first == Done && second == Threw(InvalidOperation)
  {
    var e := new Engine();
    var x := e.NewExpressionActivity(SychronizedTask, Some(Done));
    ghost var ev;
    first, ev := e.Run(x);
    second, ev := e.Run(x);
  }

  /**
   * Running a workflow with nothing queued: a WorkflowActivity throws
   * InvalidOperationException, a Workflow returns at once.
   */
  method EmptyWorkflows() returns (fluent: Outcome, plain: Outcome)
    ensures fluent == Threw(InvalidOperation) && plain == Done
  {
    var e := new Engine();
    var f := e.NewWorkflow(Fluent, Some(0), Some(0));
    var p := e.NewWorkflow(Plain, Some(0), Some(0));
    ghost var ev;
    fluent, ev := e.Run(f.value);
    plain, ev := e.Run(p.value);
  }

  /**
   * The head of the sample workflow: `Do`, `FireAndForget` and `WaitFor`
   * queue their activities, and `If` then fails because the workflow has
   * not run, so its `LastActivity` is still null.
   */
  method SampleChainIf(spec: Spec<Obj>) returns (queued: seq<Ref>, res: Result<Ref>)
    requires spec != NullSpec
    ensures |queued| == 3 && res == Err(ArgumentNull)
  {
    var e := new Engine();
    var made := e.NewWorkflow(Fluent, Some(0), Some(0));
    var w := made.value;
    var create := e.NewOpaqueActivity(Done, Null, false);
    var notify := e.NewParallelActivity();
    var approval := e.NewOpaqueActivity(Done, Null, true);
    var wf := Do(e, w, create);
    assert wf == w && e.arena.builds[w].None? && e.arena.fields[w] == RunFields(NotStarted, Null, [create], None);
    wf := Builder.FireAndForget(e, wf, notify);
    assert wf == w && e.arena.builds[w].None? && e.arena.fields[w] == RunFields(NotStarted, Null, [create, notify], None);
    wf := Builder.WaitFor(e, wf, approval);
    assert wf == w && e.arena.fields[w].last.None?;
    queued := e.arena.fields[w].queue;
    res := If(e, wf, spec, ObjectType);
  }

  /**
   * Once `LastActivity` is a Completed activity with a result, `If` opens;
   * the activity given to `WaitFor` goes to the success branch, which
   * `WaitFor` returns, and `Else()` on that branch throws, since the `If`
   * is open on the outer workflow.
   */
  method BranchReturnedByWaitFor(spec: Spec<Obj>) returns (began: Result<Ref>, branch: Ref, outer: Ref, elsed: Result<Ref>)
    requires spec != NullSpec
    ensures began == Ok(outer) && branch != outer && elsed == Err(InvalidOperation)
  {
    var e := new Engine();
    var driver := CompletedActivity(e, Boxed(BoolValue(true)));
    var made := e.NewWorkflow(Fluent, Some(0), Some(0));
    outer := made.value;
    e.SetLastActivity(outer, Some(driver));
    ghost var a := e.arena;
    assert CapturedResult(spec, BoolType, FieldsOf(a, Some(driver))) == Ok(Boxed(BoolValue(true)));
    began := If(e, outer, spec, BoolType);
    IfRouting(a, outer, spec, Boxed(BoolValue(true)));
    var review := e.NewOpaqueActivity(Done, Null, true);
    branch := Builder.WaitFor(e, outer, review);
    assert branch == |a.kinds|;
    elsed := Else(e, branch);
  }

  /**
   * `Condition` on a Workflow that has not run: the driving activity is
   * the null last activity, so the specification activity's constructor
   * throws ArgumentNullException and nothing is queued.
   */
  method ConditionBeforeRun(spec: Spec<Obj>) returns (res: Result<Ref>, queued: seq<Ref>)
    ensures res == Err(ArgumentNull) && queued == []
  {
    var e := new Engine();
    var made := e.NewWorkflow(Plain, Some(0), Some(0));
    var w := made.value;
    var onSuccess := e.NewOpaqueActivity(Done, Null, false);
    res := Condition(e, w, spec, IntType, Some(onSuccess), None);
    queued := e.arena.fields[w].queue;
  }

  /**
   * `Do(t1).And(t2).And(t3)`: the queue holds one ParallelActivity, made
   * by the first `And`, whose tasks are the three activities in order.
   */
  method AndGroupsTasks() returns (queued: seq<Ref>, group: Kind, t1: Ref, t2: Ref, t3: Ref)
    ensures |queued| == 1 && group == ParallelKind([t1, t2, t3])
  {
    var e := new Engine();
    var w;
    w, t1, t2 := PlainWorkflowJoining(e);
    t3 := e.NewOpaqueActivity(Done, Null, false);
    assert ActivityValid(e.arena, w);
    JoinedShape(Stamped(e.arena, t3, Parallel), w, t3);
    var _ := And(e, w, t3);
    queued := e.arena.fields[w].queue;
    group := e.arena.kinds[queued[0]];
  }

  /**
   * A Workflow whose head was queued with `WaitFor`: the head runs and the
   * queue is left as it was, and when that run succeeds the workflow ends
   * Delayed without running the activity behind it.
   */
  method DelayedHeadPauses() returns (o: Outcome, state: ActivityState, queued: seq<Ref>, d: Ref, x: Ref)
    ensures queued == [d, x]
    ensures o.Done? ==> state == ActivityState.Delayed
  {
    var e := new Engine();
    var w;
    w, d, x := PlainWorkflowWaiting(e);
    ghost var a := e.arena;
    ghost var ev;
    o, ev := e.Run(w);
    ghost var started := WithFields(a, w, a.fields[w].(state := Executing));
    assert QueueRun(started, e.arena, w, o, ev);
    DelayedHeadStops(started, e.arena, w, o, ev);
    state := e.arena.fields[w].state;
    queued := e.arena.fields[w].queue;
  }

  /** A new Workflow `w` to which `Do(t)` added a new activity `t`. */
  method PlainWorkflowDoing(e: Engine) returns (w: Ref, t: Ref)
    requires e.Valid()
    modifies e
    ensures e.Valid() && w < |e.arena.kinds| && t < |e.arena.kinds| && e.arena.kinds[w].WorkflowKind?
    ensures e.arena.fields[w].queue == [t] && e.arena.builds[w].None? && e.arena.kinds[t].OpaqueKind?
    ensures e.arena.types[t] == SychronizedTask
  {
    var made := e.NewWorkflow(Plain, Some(0), Some(0));
    w := made.value;
    t := e.NewOpaqueActivity(Done, Null, false);
    var _ := Do(e, w, t);
  }

  /** A new Workflow `w` given `Do(t1).And(t2)` for two new activities. */
  method PlainWorkflowJoining(e: Engine) returns (w: Ref, t1: Ref, t2: Ref)
    requires e.Valid()
    modifies e
    ensures e.Valid() && w < |e.arena.kinds| && e.arena.kinds[w].WorkflowKind? && e.arena.builds[w].None?
    ensures t1 < t2 < |e.arena.kinds| && |e.arena.fields[w].queue| == 1
    ensures var g := e.arena.fields[w].queue[0];
      g < |e.arena.kinds| && e.arena.kinds[g] == ParallelKind([t1, t2]) && e.arena.types[g] != ActivityType.Delayed
  {
    w, t1 := PlainWorkflowDoing(e);
    t2 := e.NewOpaqueActivity(Done, Null, false);
    assert ActivityValid(e.arena, w);
    JoinedShape(Stamped(e.arena, t2, Parallel), w, t2);
    var _ := And(e, w, t2);
  }

  /** A new Workflow `w` given `WaitFor(d)` and then `Do(x)`, for a new delayed activity `d`. */
  method PlainWorkflowWaiting(e: Engine) returns (w: Ref, d: Ref, x: Ref)
    requires e.Valid()
    modifies e
    ensures e.Valid() && w < |e.arena.kinds| && e.arena.kinds[w].WorkflowKind?
    ensures e.arena.fields[w] == RunFields(NotStarted, Null, [d, x], None)
    ensures d < |e.arena.types| && e.arena.types[d] == ActivityType.Delayed
  {
    var made := e.NewWorkflow(Plain, Some(0), Some(0));
    w := made.value;
    d := e.NewOpaqueActivity(Done, Null, true);
    x := e.NewOpaqueActivity(Done, Null, false);
    var _ := Builder.WaitFor(e, w, d);
    var _ := Do(e, w, x);
  }

  /** An activity that ran and was then marked Completed, with `result` as its result. */
  method CompletedActivity(e: Engine, result: Obj) returns (c: Ref)
    requires e.Valid()
    modifies e
    ensures e.Valid() && c < |e.arena.kinds|
    ensures e.arena.fields[c].state == Completed && e.arena.fields[c].result == result
  {
    c := e.NewOpaqueActivity(Done, result, false);
    ghost var ev;
    var ran;
    ran, ev := e.Run(c);
    e.SetState(c, Completed);
  }
}
