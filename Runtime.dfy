/**
 * The activity objects of FluidFlow.Activities and how they run.
 *
 * `Engine` holds the arena of every activity object allocated so far. Each
 * constructor of an activity class is a method that allocates an identity;
 * `Run`, the `OnRun` overrides and `WorkflowExecutor.Execute` are mutually
 * recursive methods. Awaiting a task is a call that returns its `Outcome`
 * together with the observable events (a ghost log) the call produced.
 */
module Runtime {
  import opened Errors
  import opened ObjectEx
  import opened Specifications
  import opened ActivityModel

  class Engine {
    var arena: Arena

    ghost predicate Valid()
      reads this
    {
      ArenaValid(arena)
    }

    constructor ()
      ensures Valid() && arena == Arena([], [], [], [])
    {
      arena := Arena([], [], [], []);
    }

    // -------------------------------------------------------------------
    // Creating and changing activities
    // -------------------------------------------------------------------

    /**
     * `new` for any activity class: a fresh identity (`Id = Guid.NewGuid()`),
     * NotStarted, of type `t`, with a null result.
     */
    method Allocate(k: Kind, t: ActivityType) returns (r: Ref)
      requires Valid() && KindRefsBelow(k, |arena.kinds|)
      modifies this
      ensures Valid() && r == |old(arena.kinds)| && arena == WithNew(old(arena), k, t)
    {
      AllocateStep(arena, k, t);
      r := |arena.kinds|;
      arena := WithNew(arena, k, t);
    }

    /** `new ExpressionActivity(type, onRun)`: of the given type, wrapping the action. */
    method NewExpressionActivity(activityType: ActivityType, onRun: Option<Outcome>) returns (r: Ref)
      requires Valid()
      modifies this
      ensures Valid() && r == |old(arena.kinds)|
      ensures arena == WithNew(old(arena), ExpressionKind(onRun), activityType)
    {
      r := Allocate(ExpressionKind(onRun), activityType);
    }

    /** A new object of an activity subclass defined outside the core, of the default type. */
    method NewOpaqueActivity(outcome: Outcome, produces: Obj, delayed: bool) returns (r: Ref)
      requires Valid()
      modifies this
      ensures Valid() && r == |old(arena.kinds)|
      ensures arena == WithNew(old(arena), OpaqueKind(outcome, produces, delayed), SychronizedTask)
    {
      r := Allocate(OpaqueKind(outcome, produces, delayed), SychronizedTask);
    }

    /** `new ParallelActivity()`: an empty task list. */
    method NewParallelActivity() returns (r: Ref)
      requires Valid()
      modifies this
      ensures Valid() && r == |old(arena.kinds)|
      ensures arena == WithNew(old(arena), ParallelKind([]), SychronizedTask)
    {
      r := Allocate(ParallelKind([]), SychronizedTask);
    }

    /**
     * `new ParallelActivity(activities)`: a null or empty collection throws
     * ArgumentNullException; otherwise the list is kept as given (duplicates
     * included, types untouched).
     */
    method NewParallelActivityFrom(activities: Option<seq<Ref>>) returns (res: Result<Ref>)
      requires Valid()
      requires activities.Some? ==> forall i :: 0 <= i < |activities.value| ==> activities.value[i] < |arena.kinds|
      modifies this
      ensures Valid()
      ensures res.Err? <==> activities.None? || activities.value == []
      ensures res.Err? ==> res.error == ArgumentNull && arena == old(arena)
      ensures res.Ok? ==>
        && res.value == |old(arena.kinds)|
        && arena == WithNew(old(arena), ParallelKind(activities.value), SychronizedTask)
    {
      if activities.None? || activities.value == [] {
        return Err(ArgumentNull);
      }
      var r := Allocate(ParallelKind(activities.value), SychronizedTask);
      res := Ok(r);
    }

    /**
     * `ParallelActivity.Add(task)`: a null task throws ArgumentNullException;
     * a task whose identity is already in the list is ignored; otherwise the
     * task's type becomes Parallel and it is appended.
     */
    method ParallelAdd(p: Ref, task: Option<Ref>) returns (res: Outcome)
      requires Valid() && p < |arena.kinds| && arena.kinds[p].ParallelKind?
      requires task.Some? ==> task.value < |arena.kinds|
      modifies this
      ensures Valid()
      ensures task.None? ==> res == Threw(ArgumentNull) && arena == old(arena)
      ensures task.Some? ==> res == Done && arena == ParallelAdded(old(arena), p, task.value)
    {
      if task.None? {
        return Threw(ArgumentNull);
      }
      var t := task.value;
      var tasks := arena.kinds[p].tasks;
      if t in tasks {
        return Done;
      }
      SetTypeStep(arena, t, Parallel);
      arena := arena.(types := arena.types[t := Parallel]);
      assert ActivityValid(arena, p);
      SetKindStep(arena, p, ParallelKind(tasks + [t]));
      arena := arena.(kinds := arena.kinds[p := ParallelKind(tasks + [t])]);
      res := Done;
    }

    /**
     * `new SpecificationActivity<T>(specification, completedActivity,
     * onSuccess, onFail)`, validated by `SpecificationActivityKind`; the new
     * activity has the default type.
     */
    method NewSpecificationActivity(spec: Spec<Obj>, t: Ty, completed: Option<Ref>, onSuccess: Option<Ref>, onFail: Option<Ref>)
      returns (res: Result<Ref>)
      requires Valid()
      requires completed.Some? ==> completed.value < |arena.kinds|
      requires onSuccess.Some? ==> onSuccess.value < |arena.kinds|
      requires onFail.Some? ==> onFail.value < |arena.kinds|
      modifies this
      ensures Valid()
      ensures match SpecificationActivityKind(spec, t, FieldsOf(old(arena), completed), onSuccess, onFail)
        case Err(e) => res == Err(e) && arena == old(arena)
        case Ok(k) => res == Ok(|old(arena.kinds)|) && arena == WithNew(old(arena), k, SychronizedTask)
    {
      match SpecificationActivityKind(spec, t, FieldsOf(arena, completed), onSuccess, onFail)
      case Err(e) =>
        res := Err(e);
      case Ok(k) =>
        var r := Allocate(k, SychronizedTask);
        res := Ok(r);
    }

    /**
     * `new WorkflowActivity(serviceQueue, taskStore)` or `new
     * Workflow(serviceQueue, taskStore)`: a null service queue or store
     * throws ArgumentNullException; otherwise an empty workflow whose
     * executor hands delayed activities to `serviceQueue`.
     */
    method NewWorkflow(flavor: Flavor, serviceQueue: Option<nat>, store: Option<nat>) returns (res: Result<Ref>)
      requires Valid()
      modifies this
      ensures Valid()
      ensures res.Err? <==> serviceQueue.None? || store.None?
      ensures res.Err? ==> res.error == ArgumentNull && arena == old(arena)
      ensures res.Ok? ==>
        && res.value == |old(arena.kinds)|
        && arena == WithNew(old(arena), WorkflowKind(flavor, serviceQueue.value, store.value), SychronizedTask)
    {
      if serviceQueue.None? || store.None? {
        return Err(ArgumentNull);
      }
      var r := Allocate(WorkflowKind(flavor, serviceQueue.value, store.value), SychronizedTask);
      res := Ok(r);
    }

    /** The public `LastActivity` setter of a `WorkflowActivity`. */
    method SetLastActivity(w: Ref, last: Option<Ref>)
      requires Valid() && IsFluentWorkflow(arena.kinds, w) && (last.Some? ==> last.value < |arena.kinds|)
      modifies this
      ensures Valid() && arena == WithFields(old(arena), w, old(arena.fields[w]).(last := last))
    {
      StepValid(arena, w, arena.fields[w].(last := last));
      arena := WithFields(arena, w, arena.fields[w].(last := last));
    }

    /** The public `State` setter. */
    method SetState(r: Ref, state: ActivityState)
      requires Valid() && r < |arena.kinds|
      modifies this
      ensures Valid() && arena == WithFields(old(arena), r, old(arena.fields[r]).(state := state))
    {
      StepValid(arena, r, arena.fields[r].(state := state));
      arena := WithFields(arena, r, arena.fields[r].(state := state));
    }

    /** The public `Type` setter. */
    method SetType(r: Ref, activityType: ActivityType)
      requires Valid() && r < |arena.kinds|
      modifies this
      ensures Valid() && arena == old(arena).(types := old(arena.types)[r := activityType])
    {
      SetTypeStep(arena, r, activityType);
      arena := arena.(types := arena.types[r := activityType]);
    }

    // -------------------------------------------------------------------
    // Running activities
    // -------------------------------------------------------------------

    /**
     * `Activity.Run()`. Only activities that had not started can change,
     * and every event comes from one of them.
     */
    method Run(x: Ref) returns (res: Outcome, ghost inner: seq<Event>)
      requires Valid() && x < |arena.kinds|
      modifies this
      ensures Valid() && Evolves(old(arena), arena, {})
      ensures arena.fields[x].state != NotStarted
      ensures ActorsFrom(inner, old(arena.fields), None)
      ensures RunPost(old(arena), arena, x, res, inner)
      decreases CountUnstarted(arena.fields), 0
    {
      if arena.fields[x].state != NotStarted {
        return Threw(InvalidOperation), [];
      }
      ghost var a0 := arena;
      var f := arena.fields[x].(state := Executing);
      Step(a0, x, f);
      arena := WithFields(arena, x, f);
      res, inner := OnRun(x);
      EvolvesStart(a0, WithFields(a0, x, f), arena, x);
      StartActors(inner, a0, x, f);
    }

    /**
     * A caller awaiting `Run()` of `x`: what every caller relies on is only
     * that the run changes nothing but activities that had not started, and
     * that every event of it comes from one of them; its outcome is passed
     * on as it is.
     */
    method Await(x: Ref) returns (res: Outcome, ghost inner: seq<Event>)
      requires Valid() && x < |arena.kinds|
      modifies this
      ensures Valid() && Evolves(old(arena), arena, {})
      ensures ActorsFrom(inner, old(arena.fields), None)
      decreases CountUnstarted(arena.fields), 1
    {
      res, inner := Run(x);
    }

    /** The `OnRun` override of `x`'s class, entered once `Run` has marked `x` Executing. */
    method OnRun(x: Ref) returns (res: Outcome, ghost inner: seq<Event>)
      requires Valid() && x < |arena.kinds| && arena.fields[x].state == Executing
      modifies this
      ensures Valid() && Evolves(old(arena), arena, {x})
      ensures ActorsFrom(inner, old(arena.fields), Some(x))
      ensures OnRunPost(old(arena), arena, x, res, inner)
      decreases CountUnstarted(arena.fields), 7
    {
      match arena.kinds[x]
      case ExpressionKind(action) =>
        if action.None? {
          return Threw(ArgumentNull), [];
        }
        res, inner := action.value, [Invoked(x)];
      case OpaqueKind(outcome, produces, _) =>
        var f := arena.fields[x].(result := produces);
        Step(arena, x, f);
        arena := WithFields(arena, x, f);
        res, inner := outcome, [Invoked(x)];
      case ParallelKind(_) =>
        res, inner := OnRunParallel(x);
      case SpecificationKind(_, _, _, _) =>
        res, inner := OnRunSpecification(x);
      case WorkflowKind(_, _, _) =>
        res, inner := OnRunWorkflow(x);
    }

    /** ParallelActivity.OnRun: runs every task in list order and rethrows the first failure. */
    method OnRunParallel(x: Ref) returns (res: Outcome, ghost inner: seq<Event>)
      requires Valid() && x < |arena.kinds| && arena.kinds[x].ParallelKind? && arena.fields[x].state == Executing
      modifies this
      ensures Valid() && Evolves(old(arena), arena, {x})
      ensures arena.fields[x] == old(arena.fields[x])
      ensures ActorsFrom(inner, old(arena.fields), Some(x))
      ensures var own := ByActor(inner, x);
        AllRunsBy(own, x) && Dispatched(own) == old(arena.kinds[x].tasks) && res == FirstFailure(RanOutcomes(own))
      decreases CountUnstarted(arena.fields), 5
    {
      ghost var a0 := arena;
      var tasks := arena.kinds[x].tasks;
      assert ActivityValid(arena, x);
      var i := 0;
      res, inner := Done, [];
      while i < |tasks|
        invariant 0 <= i <= |tasks|
        invariant Valid() && Evolves(a0, arena, {})
        invariant ActorsFrom(inner, a0.fields, Some(x))
        invariant AllRunsBy(ByActor(inner, x), x)
        invariant Dispatched(ByActor(inner, x)) == tasks[..i]
        invariant res == FirstFailure(RanOutcomes(ByActor(inner, x)))
      {
        ghost var before := arena;
        var o, sub := Await(tasks[i]);
        ghost var e := Ran(x, tasks[i], o);
        ParallelStep(inner, sub, e, x, a0, before, tasks, i, res);
        EvolvesTrans(a0, before, arena, {}, {});
        inner := inner + (sub + [e]);
        if res.Done? && o.Threw? {
          res := o;
        }
        i := i + 1;
      }
    }

    /**
     * SpecificationActivity.OnRun: Completed first; then the success branch
     * if the specification holds for the stored result, else the fail
     * branch if there is one.
     */
    method OnRunSpecification(x: Ref) returns (res: Outcome, ghost inner: seq<Event>)
      requires Valid() && x < |arena.kinds| && arena.kinds[x].SpecificationKind? && arena.fields[x].state == Executing
      modifies this
      ensures Valid() && Evolves(old(arena), arena, {x})
      ensures ActorsFrom(inner, old(arena.fields), Some(x))
      ensures SpecificationPost(old(arena), arena, x, res, inner)
      decreases CountUnstarted(arena.fields), 5
    {
      ghost var a0 := arena;
      var k := arena.kinds[x];
      assert ActivityValid(arena, x);
      var f := arena.fields[x].(state := Completed);
      Step(a0, x, f);
      arena := WithFields(arena, x, f);
      var verdict := k.spec.IsSatisfiedBy(k.target);
      if verdict.Err? {
        return Threw(verdict.error), [];
      }
      var branch: Ref;
      if verdict.value {
        branch := k.onSuccess;
      } else if k.onFail.None? {
        return Done, [];
      } else {
        branch := k.onFail.value;
      }
      ghost var done := arena;
      var o, sub := Await(branch);
      EvolvesTrans(a0, done, arena, {x}, {});
      ghost var e := Ran(x, branch, o);
      OwnTail(sub, [e], done.fields, x);
      ActorsBack(sub + [e], a0, done, {x}, Some(x));
      res, inner := o, sub + [e];
    }

    /**
     * WorkflowActivity.OnRun and Workflow.OnRun: while the queue is not
     * empty and the workflow is not Delayed, record the head as the last
     * activity and let the executor handle it; a Workflow found Delayed
     * saves itself first.
     */
    method OnRunWorkflow(w: Ref) returns (res: Outcome, ghost inner: seq<Event>)
      requires Valid() && w < |arena.kinds| && arena.kinds[w].WorkflowKind?
      requires arena.fields[w].state == Executing || arena.fields[w].state == ActivityState.Delayed
      modifies this
      ensures Valid() && Evolves(old(arena), arena, {w})
      ensures ActorsFrom(inner, old(arena.fields), Some(w))
      ensures WorkflowPost(old(arena), arena, w, res, inner)
      decreases CountUnstarted(arena.fields), 6
    {
      ghost var a0 := arena;
      var k := arena.kinds[w];
      if arena.fields[w].queue == [] {
        if k.flavor == Fluent {
          return Threw(InvalidOperation), [];
        }
        return Done, [];
      }
      if arena.fields[w].state == ActivityState.Delayed {
        if k.flavor == Plain {
          return Done, [Saved(k.store, w)];
        }
        return Done, [];
      }
      res, inner := DrainQueue(w);
    }

    /**
     * The loop of a workflow's `OnRun`, entered Executing with a non-empty
     * queue: it hands the head to the executor until the queue is empty, a
     * run throws, or the workflow is Delayed, which a Workflow then saves.
     */
    method DrainQueue(w: Ref) returns (res: Outcome, ghost inner: seq<Event>)
      requires Valid() && w < |arena.kinds| && arena.kinds[w].WorkflowKind?
      requires arena.fields[w].state == Executing && arena.fields[w].queue != []
      modifies this
      ensures Valid() && Evolves(old(arena), arena, {w})
      ensures ActorsFrom(inner, old(arena.fields), Some(w))
      ensures QueueRun(old(arena), arena, w, res, inner)
      decreases CountUnstarted(arena.fields), 5
    {
      ghost var a0 := arena;
      var k := arena.kinds[w];
      res, inner := Done, [];
      while arena.fields[w].queue != []
        invariant Valid() && Evolves(a0, arena, {w})
        invariant ActorsFrom(inner, a0.fields, Some(w))
        invariant Progress(a0, arena, w, Done, inner)
        invariant arena.fields[w].state == Executing
               || (arena.fields[w].state == ActivityState.Delayed && arena.fields[w].queue != [])
        invariant arena.fields[w].state == ActivityState.Delayed ==> Dispatched(ByActor(inner, w)) != []
        invariant PausedAt(a0, arena, w, ByActor(inner, w))
        decreases |arena.fields[w].queue| + (if arena.fields[w].state == ActivityState.Delayed then 0 else 1)
      {
        if arena.fields[w].state == ActivityState.Delayed {
          PausedExit(a0, arena, w, inner);
          if k.flavor == Plain {
            inner := inner + [Saved(k.store, w)];
          } else {
            assert inner + [] == inner;
          }
          return;
        }
        var o;
        o, inner := WorkflowIteration(w, a0, inner);
        if o.Threw? {
          LoopExit(a0, arena, w, o, inner);
          return o, inner;
        }
      }
      LoopExit(a0, arena, w, res, inner);
    }

    /**
     * One pass of a workflow's `OnRun` loop: the head of the queue becomes
     * the last activity and the executor handles it. `inner` is the whole
     * log of the loop so far.
     */
    method WorkflowIteration(w: Ref, ghost a0: Arena, ghost inner0: seq<Event>) returns (o: Outcome, ghost inner: seq<Event>)
      requires Valid() && w < |arena.kinds| && arena.kinds[w].WorkflowKind?
      requires arena.fields[w].state == Executing && arena.fields[w].queue != []
      requires Evolves(a0, arena, {w}) && ActorsFrom(inner0, a0.fields, Some(w)) && Progress(a0, arena, w, Done, inner0)
      modifies this
      ensures Valid() && Evolves(a0, arena, {w})
      ensures ActorsFrom(inner, a0.fields, Some(w))
      ensures Progress(a0, arena, w, o, inner)
      ensures Dispatched(ByActor(inner, w)) != []
      ensures o.Done? ==>
        (arena.fields[w].state == Executing && |arena.fields[w].queue| < |old(arena.fields[w].queue)|)
        || (arena.fields[w].state == ActivityState.Delayed && arena.fields[w].queue != []
            && |arena.fields[w].queue| <= |old(arena.fields[w].queue)|)
      ensures o.Threw? ==>
        var own := ByActor(inner, w);
        && |Dispatched(own)| == |a0.fields[w].queue| - |arena.fields[w].queue| + 1
        && arena.fields[w].queue != [] && own != [] && own[|own| - 1] == Ran(w, arena.fields[w].queue[0], o)
      ensures PausedAt(a0, arena, w, ByActor(inner, w))
      decreases CountUnstarted(arena.fields), 4
    {
      ghost var before := arena;
      var head := arena.fields[w].queue[0];
      assert ActivityValid(arena, w);
      var f := arena.fields[w].(last := Some(head));
      Step(before, w, f);
      arena := WithFields(arena, w, f);
      ghost var marked := arena;
      ghost var ev;
      o, ev := Execute(w);
      EvolvesTrans(a0, before, marked, {w}, {w});
      ExecuteOwn(marked, arena, w, o, ev);
      WorkflowStep(a0, before, marked, arena, w, o, inner0, ev);
      EvolvesTrans(a0, marked, arena, {w}, {w});
      ActorsBack(ev, a0, marked, {w}, Some(w));
      ActorsFromAppend(inner0, ev, a0.fields, Some(w));
      inner := inner0 + ev;
    }

    /** WorkflowExecutor.Execute for the executor of workflow `p`. */
    method Execute(p: Ref) returns (res: Outcome, ghost inner: seq<Event>)
      requires Valid() && p < |arena.kinds| && arena.kinds[p].WorkflowKind? && arena.fields[p].state != NotStarted
      modifies this
      ensures Valid() && Evolves(old(arena), arena, {p})
      ensures ActorsFrom(inner, old(arena.fields), Some(p))
      ensures ExecutePost(old(arena), arena, p, res, inner)
      decreases CountUnstarted(arena.fields), 3
    {
      if arena.fields[p].queue == [] {
        return Threw(InvalidOperation), [];
      }
      var h := arena.fields[p].queue[0];
      assert ActivityValid(arena, p);
      match arena.types[h]
      case FireAndForget =>
        res, inner := ExecuteDetached(p);
      case Delayed =>
        res, inner := ExecuteDelayed(p);
      case _ =>
        res, inner := ExecuteAwaited(p);
    }

    /** Execute on a FireAndForget head: started without being awaited, and dequeued. */
    method ExecuteDetached(p: Ref) returns (res: Outcome, ghost inner: seq<Event>)
      requires Valid() && p < |arena.kinds| && arena.kinds[p].WorkflowKind? && arena.fields[p].state != NotStarted
      requires arena.fields[p].queue != [] && arena.fields[p].queue[0] < |arena.kinds|
      requires arena.types[arena.fields[p].queue[0]] == FireAndForget
      modifies this
      ensures Valid() && Evolves(old(arena), arena, {p})
      ensures ActorsFrom(inner, old(arena.fields), Some(p))
      ensures ExecutePost(old(arena), arena, p, res, inner)
      decreases CountUnstarted(arena.fields), 2
    {
      var f := arena.fields[p];
      var g := f.(state := Executing, queue := f.queue[1..]);
      Step(arena, p, g);
      arena := WithFields(arena, p, g);
      res, inner := Done, [Detached(p, f.queue[0])];
    }

    /**
     * Execute on a Delayed head: its run is awaited and, when it succeeds,
     * handed to the service queue; `p` becomes Delayed and is saved.
     */
    method ExecuteDelayed(p: Ref) returns (res: Outcome, ghost inner: seq<Event>)
      requires Valid() && p < |arena.kinds| && arena.kinds[p].WorkflowKind? && arena.fields[p].state != NotStarted
      requires arena.fields[p].queue != [] && arena.fields[p].queue[0] < |arena.kinds|
      requires arena.types[arena.fields[p].queue[0]] == ActivityType.Delayed
      modifies this
      ensures Valid() && Evolves(old(arena), arena, {p})
      ensures ActorsFrom(inner, old(arena.fields), Some(p))
      ensures ExecutePost(old(arena), arena, p, res, inner)
      decreases CountUnstarted(arena.fields), 2
    {
      ghost var a0 := arena;
      var k := arena.kinds[p];
      var f := arena.fields[p];
      var h := f.queue[0];
      var o, sub := Await(h);
      ghost var own := [Ran(p, h, o)];
      if o.Done? {
        ghost var ran := arena;
        Step(ran, p, f.(state := ActivityState.Delayed));
        arena := WithFields(arena, p, f.(state := ActivityState.Delayed));
        EvolvesTrans(a0, ran, arena, {}, {p});
        own := own + Paused(k, p, a0.kinds, h);
      }
      OwnTail(sub, own, a0.fields, p);
      res, inner := o, sub + own;
    }

    /**
     * Execute on any other head: `p` becomes Executing, the head's run is
     * awaited and the head is dequeued only if it succeeded.
     */
    method ExecuteAwaited(p: Ref) returns (res: Outcome, ghost inner: seq<Event>)
      requires Valid() && p < |arena.kinds| && arena.kinds[p].WorkflowKind? && arena.fields[p].state != NotStarted
      requires arena.fields[p].queue != [] && arena.fields[p].queue[0] < |arena.kinds|
      requires arena.types[arena.fields[p].queue[0]] != FireAndForget
      requires arena.types[arena.fields[p].queue[0]] != ActivityType.Delayed
      modifies this
      ensures Valid() && Evolves(old(arena), arena, {p})
      ensures ActorsFrom(inner, old(arena.fields), Some(p))
      ensures ExecutePost(old(arena), arena, p, res, inner)
      decreases CountUnstarted(arena.fields), 2
    {
      ghost var a0 := arena;
      var f := arena.fields[p];
      var h := f.queue[0];
      var g := f.(state := Executing);
      Step(a0, p, g);
      arena := WithFields(arena, p, g);
      ghost var marked := arena;
      var o, sub := Await(h);
      EvolvesTrans(a0, marked, arena, {p}, {});
      if o.Done? {
        ghost var ran := arena;
        Step(ran, p, g.(queue := f.queue[1..]));
        arena := WithFields(arena, p, g.(queue := f.queue[1..]));
        EvolvesTrans(a0, ran, arena, {p}, {p});
      }
      OwnTail(sub, [Ran(p, h, o)], marked.fields, p);
      ActorsBack(sub + [Ran(p, h, o)], a0, marked, {p}, Some(p));
      res, inner := o, sub + [Ran(p, h, o)];
    }
  }

  // ---------------------------------------------------------------------
  // Proof steps about the events of a run
  // ---------------------------------------------------------------------

  /**
   * The own events of `sub + tail`, when `sub` comes from a run that only
   * activities unstarted in `fs` took part in, `p` had started, and `tail`
   * is `p`'s own.
   */
  lemma OwnTail(sub: seq<Event>, tail: seq<Event>, fs: seq<RunFields>, p: Ref)
    requires ActorsFrom(sub, fs, None) && !Unstarted(fs, p)
    requires forall i :: 0 <= i < |tail| ==> Actor(tail[i]) == p
    ensures ByActor(sub + tail, p) == tail
    ensures ActorsFrom(sub + tail, fs, Some(p))
  {
    ByActorOthers(sub, fs, p);
    ByActorAppend(sub, tail, p);
    AllOwn(tail, p);
  }

  lemma {:induction false} AllOwn(es: seq<Event>, p: Ref)
    requires forall i :: 0 <= i < |es| ==> Actor(es[i]) == p
    ensures ByActor(es, p) == es
    decreases |es|
  {
    if es != [] {
      AllOwn(es[..|es| - 1], p);
    }
  }

  /** One more awaited task of a parallel activity: its own events grow by that run only. */
  lemma ParallelStep(inner: seq<Event>, sub: seq<Event>, e: Event, x: Ref, a0: Arena, before: Arena,
                     tasks: seq<Ref>, i: nat, res: Outcome)
    requires i < |tasks| && e.Ran? && e.caller == x && e.callee == tasks[i]
    requires Evolves(a0, before, {}) && !Unstarted(a0.fields, x)
    requires ActorsFrom(sub, before.fields, None) && ActorsFrom(inner, a0.fields, Some(x))
    requires AllRunsBy(ByActor(inner, x), x)
    requires Dispatched(ByActor(inner, x)) == tasks[..i]
    requires res == FirstFailure(RanOutcomes(ByActor(inner, x)))
    ensures ActorsFrom(inner + (sub + [e]), a0.fields, Some(x))
    ensures AllRunsBy(ByActor(inner + (sub + [e]), x), x)
    ensures Dispatched(ByActor(inner + (sub + [e]), x)) == tasks[..i + 1]
    ensures FirstFailure(RanOutcomes(ByActor(inner + (sub + [e]), x)))
         == if res.Done? && e.outcome.Threw? then e.outcome else res
  {
    var own := ByActor(inner, x);
    ParallelOwn(inner, sub, e, x, a0, before);
    RunAppended(own, e);
    assert tasks[..i + 1] == tasks[..i] + [tasks[i]];
    FirstFailureAppend(RanOutcomes(own), e.outcome);
  }

  /** The events of one awaited task, followed by its `Ran` event, add only that event to `x`'s own. */
  lemma ParallelOwn(inner: seq<Event>, sub: seq<Event>, e: Event, x: Ref, a0: Arena, before: Arena)
    requires e.Ran? && e.caller == x
    requires Evolves(a0, before, {}) && !Unstarted(a0.fields, x)
    requires ActorsFrom(sub, before.fields, None) && ActorsFrom(inner, a0.fields, Some(x))
    ensures ActorsFrom(inner + (sub + [e]), a0.fields, Some(x))
    ensures ByActor(inner + (sub + [e]), x) == ByActor(inner, x) + [e]
  {
    assert !Unstarted(before.fields, x);
    OwnTail(sub, [e], before.fields, x);
    ActorsBack(sub + [e], a0, before, {}, Some(x));
    ActorsFromAppend(inner, sub + [e], a0.fields, Some(x));
    ByActorAppend(inner, sub + [e], x);
  }

  /** Appending an awaited run adds its callee to the dispatched activities and its outcome to the outcomes. */
  lemma RunAppended(own: seq<Event>, e: Event)
    requires e.Ran?
    ensures Dispatched(own + [e]) == Dispatched(own) + [e.callee]
    ensures RanOutcomes(own + [e]) == RanOutcomes(own) + [e.outcome]
    ensures AllRunsBy(own, e.caller) ==> AllRunsBy(own + [e], e.caller)
  {
    DispatchedAppend(own, [e]);
    assert [e][..0] == [];
  }

  /** The first failure after one more outcome. */
  lemma FirstFailureAppend(os: seq<Outcome>, o: Outcome)
    ensures FirstFailure(os + [o]) == if FirstFailure(os).Done? && o.Threw? then o else FirstFailure(os)
  {
    assert (os + [o])[..|os|] == os;
  }

  /** A Workflow saving itself adds one own event and dispatches nothing. */
  lemma SaveStep(inner: seq<Event>, e: Event, w: Ref)
    requires e.Saved? && e.workflow == w
    ensures ByActor(inner + [e], w) == ByActor(inner, w) + [e]
    ensures Dispatched(ByActor(inner + [e], w)) == Dispatched(ByActor(inner, w))
  {
    ByActorAppend(inner, [e], w);
    assert ByActor([e], w) == [e] by {
      assert [e][..0] == [];
    }
    DispatchedAppend(ByActor(inner, w), [e]);
    assert Dispatched([e]) == [] by {
      assert [e][..0] == [];
    }
  }

  /**
   * What one call of the executor did to workflow `w`, whose own events in
   * that call are `own`: it dispatched the head and nothing else, kept the
   * result and the last activity, and either dequeued a head that is not a
   * Delayed activity after it succeeded, or left the queue as it was
   * because the run failed or paused the workflow.
   */
  ghost predicate HeadExecuted(marked: Arena, after: Arena, w: Ref, o: Outcome, own: seq<Event>)
    requires Comparable(marked, after) && w < |marked.kinds| && marked.kinds[w].WorkflowKind?
    requires marked.fields[w].queue != []
  {
    var q := marked.fields[w].queue;
    var f1 := after.fields[w];
    && q[0] < |marked.types|
    && Dispatched(own) == [q[0]]
    && f1.result == marked.fields[w].result && f1.last == marked.fields[w].last
    && ((o.Done? && f1.queue == q[1..] && marked.types[q[0]] != ActivityType.Delayed && f1.state == Executing)
        || (f1.queue == q && o.Threw? && f1.state == Executing)
        || (f1.queue == q && o.Done? && marked.types[q[0]] == ActivityType.Delayed && f1.state == ActivityState.Delayed))
    && (o.Threw? ==> own != [] && own[|own| - 1] == Ran(w, q[0], o))
    && (f1.state == ActivityState.Delayed ==> EndsWith(own, Paused(marked.kinds[w], w, marked.kinds, q[0])))
  }

  /**
   * A workflow `w` that is Delayed in `a1` paused at the head of its queue:
   * its own events `own` end with `Paused` for that head.
   */
  ghost predicate PausedAt(a0: Arena, a1: Arena, w: Ref, own: seq<Event>)
    requires Comparable(a0, a1) && w < |a0.kinds| && a0.kinds[w].WorkflowKind?
  {
    a1.fields[w].state == ActivityState.Delayed ==>
      && a1.fields[w].queue != [] && a1.fields[w].queue[0] < |a0.kinds|
      && EndsWith(own, Paused(a0.kinds[w], w, a0.kinds, a1.fields[w].queue[0]))
  }

  /** `ExecutePost` read as `HeadExecuted`. */
  lemma ExecuteOwn(marked: Arena, after: Arena, w: Ref, o: Outcome, ev: seq<Event>)
    requires Comparable(marked, after) && w < |marked.kinds| && marked.kinds[w].WorkflowKind?
    requires marked.fields[w].state == Executing && marked.fields[w].queue != []
    requires ExecutePost(marked, after, w, o, ev)
    ensures HeadExecuted(marked, after, w, o, ByActor(ev, w))
  {
    var f := marked.fields[w];
    var h := f.queue[0];
    match marked.types[h]
    case FireAndForget =>
      assert after.fields[w] == f.(queue := f.queue[1..]);
      DetachedHead(marked, after, w, o, ev);
    case Delayed =>
      DelayedHead(marked, after, w, o, ev);
    case _ =>
      RanHead(marked, after, w, o, ev);
  }

  /** The head was started without being awaited, and left the queue. */
  lemma DetachedHead(marked: Arena, after: Arena, w: Ref, o: Outcome, ev: seq<Event>)
    requires Comparable(marked, after) && w < |marked.kinds| && marked.kinds[w].WorkflowKind?
    requires marked.fields[w].queue != []
    requires var f := marked.fields[w];
      && f.queue[0] < |marked.types| && marked.types[f.queue[0]] == ActivityType.FireAndForget
      && o == Done && ev == [Detached(w, f.queue[0])] && after.fields[w] == f.(queue := f.queue[1..])
      && f.state == Executing
    ensures HeadExecuted(marked, after, w, o, ByActor(ev, w))
  {
    var h := marked.fields[w].queue[0];
    assert ev[..0] == [];
    assert ByActor(ev, w) == [Detached(w, h)];
    assert Dispatched(ev) == [h];
  }

  /** The head was a Delayed activity: awaited and, on success, handed to the service queue. */
  lemma DelayedHead(marked: Arena, after: Arena, w: Ref, o: Outcome, ev: seq<Event>)
    requires Comparable(marked, after) && w < |marked.kinds| && marked.kinds[w].WorkflowKind?
    requires var f := marked.fields[w]; var k := marked.kinds[w];
      && f.queue != [] && f.state == Executing
      && f.queue[0] < |marked.types| && marked.types[f.queue[0]] == ActivityType.Delayed
      && ByActor(ev, w) == [Ran(w, f.queue[0], o)] + (if o.Done? then Paused(k, w, marked.kinds, f.queue[0]) else [])
      && after.fields[w] == (if o.Done? then f.(state := ActivityState.Delayed) else f)
    ensures HeadExecuted(marked, after, w, o, ByActor(ev, w))
  {
    var h := marked.fields[w].queue[0];
    var k := marked.kinds[w];
    var extra := if o.Done? then Paused(k, w, marked.kinds, h) else [];
    DispatchedAppend([Ran(w, h, o)], extra);
    assert Dispatched([Ran(w, h, o)]) == [h] by {
      assert [Ran(w, h, o)][..0] == [];
    }
    assert Dispatched(extra) == [] by {
      if o.Done? {
        assert extra[..1] == [extra[0]];
        assert [extra[0]][..0] == [];
      }
    }
  }

  /** The head was awaited and, on success, dequeued. */
  lemma RanHead(marked: Arena, after: Arena, w: Ref, o: Outcome, ev: seq<Event>)
    requires Comparable(marked, after) && w < |marked.kinds| && marked.kinds[w].WorkflowKind?
    requires marked.fields[w].queue != []
    requires var f := marked.fields[w];
      && f.state == Executing
      && f.queue[0] < |marked.types| && marked.types[f.queue[0]] != ActivityType.Delayed
      && ByActor(ev, w) == [Ran(w, f.queue[0], o)]
      && after.fields[w] == f.(queue := if o.Done? then f.queue[1..] else f.queue)
    ensures HeadExecuted(marked, after, w, o, ByActor(ev, w))
  {
    var own := ByActor(ev, w);
    assert Dispatched(own) == [marked.fields[w].queue[0]] by {
      assert own[..0] == [];
    }
  }

  /**
   * Dispatching the head `q[0]` of a queue drained so far without stopping:
   * either it leaves the queue, and it was not a Delayed activity, or the
   * loop stops at it.
   */
  lemma DrainStep(types: seq<ActivityType>, q0: seq<Ref>, q: seq<Ref>, d: seq<Ref>, q1: seq<Ref>, stopped: bool)
    requires Drained(types, q0, q, d, false) && q != []
    requires (q1 == q[1..] && q[0] < |types| && types[q[0]] != ActivityType.Delayed) || (q1 == q && stopped)
    ensures Drained(types, q0, q1, d + [q[0]], stopped)
  {
    var removed := |q0| - |q|;
    assert q[0] == q0[removed];
    assert q0[..removed + 1] == q0[..removed] + [q0[removed]];
    if q1 == q[1..] {
      assert q1 == q0[removed + 1..];
    }
  }

  /** One iteration of the workflow loop keeps `Progress`, or ends it with the failing head. */
  lemma WorkflowStep(a0: Arena, before: Arena, marked: Arena, after: Arena,
                     w: Ref, o: Outcome, inner: seq<Event>, ev: seq<Event>)
    requires Comparable(a0, before) && Comparable(before, after) && w < |a0.kinds| && a0.kinds[w].WorkflowKind?
    requires Evolves(a0, before, {w}) && Progress(a0, before, w, Done, inner)
    requires before.fields[w].state == Executing && before.fields[w].queue != []
    requires marked == WithFields(before, w, before.fields[w].(last := Some(before.fields[w].queue[0])))
    requires Evolves(marked, after, {w}) && HeadExecuted(marked, after, w, o, ByActor(ev, w))
    ensures Progress(a0, after, w, o, inner + ev)
    ensures Dispatched(ByActor(inner + ev, w)) != []
    ensures o.Done? ==>
      (after.fields[w].state == Executing && |after.fields[w].queue| < |before.fields[w].queue|)
      || (after.fields[w].state == ActivityState.Delayed && after.fields[w].queue != []
          && |after.fields[w].queue| <= |before.fields[w].queue|)
    ensures o.Threw? ==>
      var own := ByActor(inner + ev, w);
      && |Dispatched(own)| == |a0.fields[w].queue| - |after.fields[w].queue| + 1
      && after.fields[w].queue != [] && own != [] && own[|own| - 1] == Ran(w, after.fields[w].queue[0], o)
    ensures PausedAt(a0, after, w, ByActor(inner + ev, w))
  {
    var q := before.fields[w].queue;
    var own := ByActor(inner, w);
    ByActorAppend(inner, ev, w);
    DispatchedAppend(own, ByActor(ev, w));
    var f1 := after.fields[w];
    var stopped := o.Threw? || (f1.state == ActivityState.Delayed && f1.queue != []
                  && f1.queue[0] < |a0.types| && a0.types[f1.queue[0]] == ActivityType.Delayed);
    DrainStep(a0.types, a0.fields[w].queue, q, Dispatched(own), f1.queue, stopped);
    PauseCarried(a0, marked, after, w, o, inner, ev);
  }

  /**
   * A paused workflow leaves its loop: a Workflow saves itself once more,
   * after the save done by the executor; a WorkflowActivity does not.
   */
  lemma PausedExit(a0: Arena, a1: Arena, w: Ref, inner: seq<Event>)
    requires Comparable(a0, a1) && w < |a0.kinds| && a0.kinds[w].WorkflowKind?
    requires a1.fields[w].state == ActivityState.Delayed && PausedAt(a0, a1, w, ByActor(inner, w))
    requires Progress(a0, a1, w, Done, inner) && Dispatched(ByActor(inner, w)) != []
    requires ActorsFrom(inner, a0.fields, Some(w))
    ensures var k := a0.kinds[w];
      var saves := if k.flavor == Plain then [Saved(k.store, w)] else [];
      QueueRun(a0, a1, w, Done, inner + saves) && ActorsFrom(inner + saves, a0.fields, Some(w))
  {
    var k := a0.kinds[w];
    if k.flavor == Plain {
      SavedExit(a0, a1, w, inner);
    } else {
      assert inner + [] == inner;
    }
  }

  /** The second save of a paused Workflow, in `Workflow.OnRun`. */
  lemma SavedExit(a0: Arena, a1: Arena, w: Ref, inner: seq<Event>)
    requires Comparable(a0, a1) && w < |a0.kinds| && a0.kinds[w].WorkflowKind? && a0.kinds[w].flavor == Plain
    requires a1.fields[w].state == ActivityState.Delayed && PausedAt(a0, a1, w, ByActor(inner, w))
    requires Progress(a0, a1, w, Done, inner) && Dispatched(ByActor(inner, w)) != []
    requires ActorsFrom(inner, a0.fields, Some(w))
    ensures var e := Saved(a0.kinds[w].store, w);
      QueueRun(a0, a1, w, Done, inner + [e]) && ActorsFrom(inner + [e], a0.fields, Some(w))
  {
    var e := Saved(a0.kinds[w].store, w);
    SaveStep(inner, e, w);
    EndsWithAppended(ByActor(inner, w), Paused(a0.kinds[w], w, a0.kinds, a1.fields[w].queue[0]), [e]);
  }

  /** A loop that drained its queue, or whose last executor call threw, meets `QueueRun`. */
  lemma LoopExit(a0: Arena, a1: Arena, w: Ref, res: Outcome, inner: seq<Event>)
    requires Comparable(a0, a1) && w < |a0.kinds| && a0.kinds[w].WorkflowKind? && a0.fields[w].queue != []
    requires Progress(a0, a1, w, res, inner)
    requires res.Done? ==> a1.fields[w].queue == [] && a1.fields[w].state == Executing
    requires res.Threw? ==>
      var own := ByActor(inner, w);
      && |Dispatched(own)| == |a0.fields[w].queue| - |a1.fields[w].queue| + 1
      && a1.fields[w].queue != [] && own != [] && own[|own| - 1] == Ran(w, a1.fields[w].queue[0], res)
    ensures QueueRun(a0, a1, w, res, inner)
  {
  }

  /** A pause reported by one executor call is still the tail of the whole log. */
  lemma PauseCarried(a0: Arena, marked: Arena, after: Arena, w: Ref, o: Outcome, inner: seq<Event>, ev: seq<Event>)
    requires Comparable(marked, after) && w < |marked.kinds| && marked.kinds[w].WorkflowKind?
    requires marked.fields[w].queue != [] && Comparable(a0, after) && a0.kinds == marked.kinds
    requires HeadExecuted(marked, after, w, o, ByActor(ev, w))
    ensures PausedAt(a0, after, w, ByActor(inner + ev, w))
  {
    if after.fields[w].state == ActivityState.Delayed {
      var q := marked.fields[w].queue;
      assert after.fields[w].queue == q;
      ByActorAppend(inner, ev, w);
      EndsWithPrefixed(ByActor(inner, w), ByActor(ev, w), Paused(a0.kinds[w], w, a0.kinds, q[0]));
    }
  }

  /**
   * A workflow entering its loop with a Delayed activity (one queued by
   * `WaitFor`) at the head dispatches that activity alone and leaves the
   * queue as it was; when the run succeeds the workflow is Delayed.
   */
  lemma DelayedHeadStops(a0: Arena, a1: Arena, w: Ref, res: Outcome, inner: seq<Event>)
    requires Comparable(a0, a1) && w < |a0.kinds| && a0.kinds[w].WorkflowKind?
    requires a0.fields[w].queue != []
    requires a0.fields[w].queue[0] < |a0.types| && a0.types[a0.fields[w].queue[0]] == ActivityType.Delayed
    requires QueueRun(a0, a1, w, res, inner)
    ensures a1.fields[w].queue == a0.fields[w].queue
    ensures Dispatched(ByActor(inner, w)) == [a0.fields[w].queue[0]]
    ensures res.Done? ==> a1.fields[w].state == ActivityState.Delayed
  {
    var f1 := a1.fields[w];
    var d := Dispatched(ByActor(inner, w));
    var paused := f1.state == ActivityState.Delayed && f1.queue != []
                  && f1.queue[0] < |a0.types| && a0.types[f1.queue[0]] == ActivityType.Delayed;
    assert Progress(a0, a1, w, res, inner) && d != [];
    DrainedAtDelayed(a0.types, a0.fields[w].queue, f1.queue, d, res.Threw? || paused);
  }

  /** A queue whose head is a Delayed activity is not drained past it. */
  lemma DrainedAtDelayed(types: seq<ActivityType>, q0: seq<Ref>, q1: seq<Ref>, d: seq<Ref>, stopped: bool)
    requires Drained(types, q0, q1, d, stopped) && d != []
    requires q0 != [] && q0[0] < |types| && types[q0[0]] == ActivityType.Delayed
    ensures q1 == q0 && d == q0[..1]
  {
    var h := q0[0];
    assert types[h] == ActivityType.Delayed;
    assert |q0| - |q1| == 0;
    assert q1 == q0;
  }

  /**
   * A Delayed activity inside an `If` branch suspends only the branch. The
   * outer workflow `w` awaits its head, the specification activity `s`
   * (queued by `EndIf` or `Condition` as a SychronizedTask); `s` holds and
   * awaits its success branch `b`, a workflow other than `w`; `b`'s loop
   * starts at a Delayed head. Each await passes the callee's outcome on,
   * which is what the two `Ran` events recorded by `s` and by `w` say. The
   * three runs are nested as the engine nests them: `b`'s run is the last
   * step of `s`'s `OnRun`, so `b` is left as its run left it, and after `s`
   * returns only the executor's own update of `w` follows. Then `s` ends
   * with `b`'s outcome and is Completed; when that outcome is Done, the
   * arena the executor leaves has `b` Delayed with its queue kept and `w`
   * Executing with `s` dequeued; when it is an exception, `w` rethrows it
   * and keeps `s` at its head.
   */
  lemma BranchPauseDequeuesSpecification(
      aw0: Arena, aw1: Arena, w: Ref, ow: Outcome, evw: seq<Event>,
      as0: Arena, as1: Arena, s: Ref, os: Outcome, evs: seq<Event>,
      ab0: Arena, ab1: Arena, b: Ref, ob: Outcome, evb: seq<Event>)
    requires Comparable(aw0, aw1) && w < |aw0.kinds| && aw0.kinds[w].WorkflowKind?
    requires aw0.fields[w].queue != [] && aw0.fields[w].queue[0] == s
    requires s < |aw0.types| && aw0.types[s] != ActivityType.FireAndForget && aw0.types[s] != ActivityType.Delayed
    requires ExecutePost(aw0, aw1, w, ow, evw)
    requires Comparable(as0, as1) && s < |as0.kinds| && as0.kinds[s].SpecificationKind?
    requires as0.kinds[s].onSuccess == b && as0.kinds[s].spec.IsSatisfiedBy(as0.kinds[s].target) == Ok(true)
    requires SpecificationPost(as0, as1, s, os, evs)
    requires Comparable(ab0, ab1) && b < |ab0.kinds| && ab0.kinds[b].WorkflowKind?
    requires ab0.fields[b].queue != [] && ab0.fields[b].queue[0] < |ab0.types|
    requires ab0.types[ab0.fields[b].queue[0]] == ActivityType.Delayed
    requires QueueRun(ab0, ab1, b, ob, evb)
    requires Ran(s, b, ob) in ByActor(evs, s) && Ran(w, s, os) in ByActor(evw, w)
    requires b != w && b < |as1.fields| && ab1.fields[b] == as1.fields[b]
    requires Evolves(as1, aw1, {w})
    ensures os == ob && ow == ob && as1.fields[s].state == Completed
    ensures ob.Done? ==>
      && aw1.fields[b].state == ActivityState.Delayed && aw1.fields[b].queue == ab0.fields[b].queue
      && aw1.fields[w].state == Executing && aw1.fields[w].queue == aw0.fields[w].queue[1..]
    ensures ob.Threw? ==> aw1.fields[w].queue == aw0.fields[w].queue
  {
    SuccessPassedOn(as0, as1, s, os, evs, ob);
    AwaitedHeadDequeued(aw0, aw1, w, ow, evw, os);
    DelayedHeadStops(ab0, ab1, b, ob, evb);
    if ob.Done? {
      assert Moved(as1.fields[b], aw1.fields[b], b in {w});
    }
  }

  /** A specification activity that holds ends Completed with the outcome of its success branch. */
  lemma SuccessPassedOn(a0: Arena, a1: Arena, s: Ref, os: Outcome, ev: seq<Event>, ob: Outcome)
    requires Comparable(a0, a1) && s < |a0.kinds| && a0.kinds[s].SpecificationKind?
    requires a0.kinds[s].spec.IsSatisfiedBy(a0.kinds[s].target) == Ok(true)
    requires SpecificationPost(a0, a1, s, os, ev)
    requires Ran(s, a0.kinds[s].onSuccess, ob) in ByActor(ev, s)
    ensures os == ob && a1.fields[s].state == Completed
  {
    assert ByActor(ev, s) == [Ran(s, a0.kinds[s].onSuccess, os)];
  }

  /**
   * An executor call whose head is a SychronizedTask, Parallel or
   * Specification activity ends with the head's outcome, and dequeues the
   * head exactly when that outcome is Done.
   */
  lemma AwaitedHeadDequeued(a0: Arena, a1: Arena, w: Ref, ow: Outcome, ev: seq<Event>, oh: Outcome)
    requires Comparable(a0, a1) && w < |a0.kinds| && a0.kinds[w].WorkflowKind? && a0.fields[w].queue != []
    requires a0.fields[w].queue[0] < |a0.types|
    requires a0.types[a0.fields[w].queue[0]] != ActivityType.FireAndForget
    requires a0.types[a0.fields[w].queue[0]] != ActivityType.Delayed
    requires ExecutePost(a0, a1, w, ow, ev)
    requires Ran(w, a0.fields[w].queue[0], oh) in ByActor(ev, w)
    ensures ow == oh && a1.fields[w].state == Executing
    ensures a1.fields[w].queue == if oh.Done? then a0.fields[w].queue[1..] else a0.fields[w].queue
  {
    assert ByActor(ev, w) == [Ran(w, a0.fields[w].queue[0], ow)];
  }
}
