/**
 * The two workflow builders: the fluent `WorkflowActivity` (Do, WaitFor,
 * FireAndForget, And, If, Else, EndIf) and `Workflow` (Do, WaitFor,
 * FireAndForget, And, Condition). A builder method is a method over the
 * `Engine` that holds the workflow; it returns the workflow the C# method
 * returns, or the exception it throws.
 *
 * `Workflow` never has an open `If`, so on it the shared methods below do
 * what Workflow.cs does; on a `WorkflowActivity` with an open `If` they
 * forward the activity to the branch the `If` is building. One exception:
 * `And` writes its new group into the last slot of the queue (`AndQueue`),
 * where both C# classes write it into the first slot holding the last
 * activity (`AndQueueAsWritten`); the two differ only when the last
 * activity is queued more than once.
 */
module Builder {
  import opened Errors
  import opened ObjectEx
  import opened Specifications
  import opened ActivityModel
  import opened Runtime

  // ---------------------------------------------------------------------
  // Queue positions replaced by `And`
  // ---------------------------------------------------------------------

  /** `List<T>.IndexOf`: the first position holding `x`, or -1. */
  function IndexOf(q: seq<Ref>, x: Ref): (i: int)
    ensures -1 <= i < |q|
    ensures i == -1 <==> x !in q
    ensures 0 <= i ==> q[i] == x && x !in q[..i]
  {
    if q == [] then -1
    else if q[0] == x then 0
    else
      var j := IndexOf(q[1..], x);
      if j == -1 then -1
      else
        assert q[..j + 1] == [q[0]] + q[1..][..j];
        j + 1
  }

  /**
   * The queue after `And` as written: the slot found by `IndexOf` of the
   * last activity, the first one holding it, is replaced by `p`.
   */
  function AndQueueAsWritten(q: seq<Ref>, p: Ref): (r: seq<Ref>)
    requires q != []
    ensures |r| == |q|
    ensures r[IndexOf(q, q[|q| - 1])] == p
  {
    q[IndexOf(q, q[|q| - 1]) := p]
  }

  /** The queue after `And` as intended: its last slot is replaced by `p`, the rest is unchanged. */
  function AndQueue(q: seq<Ref>, p: Ref): (r: seq<Ref>)
    requires q != []
    ensures |r| == |q| && r[..|q| - 1] == q[..|q| - 1] && r[|q| - 1] == p
  {
    q[..|q| - 1] + [p]
  }

  /** The two agree exactly when the last activity is queued only once. */
  lemma AndQueueAgreesIffLastUnique(q: seq<Ref>, p: Ref)
    requires q != [] && q[|q| - 1] != p
    ensures AndQueueAsWritten(q, p) == AndQueue(q, p) <==> q[|q| - 1] !in q[..|q| - 1]
  {
    var n := |q|;
    var i := IndexOf(q, q[n - 1]);
    if q[n - 1] !in q[..n - 1] {
      assert forall j :: 0 <= j < n - 1 ==> q[..n - 1][j] == q[j];
      assert AndQueueAsWritten(q, p) == AndQueue(q, p);
    } else {
      assert AndQueueAsWritten(q, p)[n - 1] != AndQueue(q, p)[n - 1];
    }
  }

  /**
   * A queue holding `a`, `b`, `a`: `And` as written replaces the first `a`,
   * so the group built from the last `a` runs first, and the last `a` is
   * still queued and runs again.
   */
  lemma AndQueueAsWrittenReplacesFirst()
    ensures AndQueueAsWritten([0, 1, 0], 2) == [2, 1, 0]
    ensures AndQueue([0, 1, 0], 2) == [0, 1, 2]
  {
    assert IndexOf([0, 1, 0], 0) == 0;
  }

  // ---------------------------------------------------------------------
  // What the builder methods do
  // ---------------------------------------------------------------------

  /** `ts` after `ParallelActivity.Add(t)`: unchanged when `t` is in it, `t` appended otherwise. */
  function Added(ts: seq<Ref>, t: Ref): seq<Ref> {
    if t in ts then ts else ts + [t]
  }

  /**
   * `And(task)` on workflow `r` with no open `If`, from arena `a` in which
   * the task is already stamped Parallel: an empty queue or a Delayed last
   * activity throws InvalidOperationException; a ParallelActivity last
   * takes the task; any other last activity is replaced, in the last slot
   * (`AndQueue`, not the first slot holding it, as `AndQueueAsWritten`
   * does), by a new ParallelActivity to which the last activity and then
   * the task are added.
   */
  function Joined(a: Arena, r: Ref, task: Ref): Result<Arena>
    requires Shaped(a) && r < |a.kinds| && task < |a.kinds| && FieldsBelow(a.fields[r], |a.kinds|)
  {
    var q := a.fields[r].queue;
    if q == [] then Err(InvalidOperation)
    else
      var last := q[|q| - 1];
      if a.types[last] == ActivityType.Delayed then Err(InvalidOperation)
      else if a.kinds[last].ParallelKind? then Ok(ParallelAdded(a, last, task))
      else
        var p := |a.kinds|;
        var b := ParallelAdded(ParallelAdded(WithNew(a, ParallelKind([]), SychronizedTask), p, last), p, task);
        Ok(WithFields(b, r, b.fields[r].(queue := AndQueue(q, p))))
  }

  /**
   * What `And` leaves behind: it fails exactly on an empty queue or a
   * Delayed last activity; otherwise the queue keeps its length and every
   * entry but the last, and the last entry is a ParallelActivity holding
   * the activities it ran before (the old group, or the old last activity
   * alone) with the task added.
   */
  lemma JoinedShape(a: Arena, r: Ref, task: Ref)
    requires Shaped(a) && r < |a.kinds| && task < |a.kinds| && FieldsBelow(a.fields[r], |a.kinds|)
    ensures var q := a.fields[r].queue;
      Joined(a, r, task).Err? <==> q == [] || a.types[q[|q| - 1]] == ActivityType.Delayed
    ensures var q := a.fields[r].queue;
      Joined(a, r, task).Ok? ==>
        var last := q[|q| - 1];
        var b := Joined(a, r, task).value;
        var q1 := b.fields[r].queue;
        && |q1| == |q| && q1[..|q| - 1] == q[..|q| - 1]
        && q1[|q| - 1] < |b.kinds| && b.kinds[q1[|q| - 1]].ParallelKind?
        && b.kinds[q1[|q| - 1]].tasks == Added(if a.kinds[last].ParallelKind? then a.kinds[last].tasks else [last], task)
        && (forall y :: 0 <= y < |a.fields| && y != r ==> b.fields[y] == a.fields[y])
  {
    var q := a.fields[r].queue;
    if q != [] && a.types[q[|q| - 1]] != ActivityType.Delayed && !a.kinds[q[|q| - 1]].ParallelKind? {
      var p := |a.kinds|;
      var last := q[|q| - 1];
      var b0 := WithNew(a, ParallelKind([]), SychronizedTask);
      var b1 := ParallelAdded(b0, p, last);
      assert b1.kinds[p] == ParallelKind([last]);
      assert b1.fields == b0.fields;
    }
  }

  /**
   * `a` after a `WorkflowActivity` `w` opens an `If` on a driving result
   * `target`: two new `WorkflowActivity` branches built with `w`'s service
   * queue and store, a new specification activity choosing between them,
   * and an open `If` in Success mode on it.
   */
  function IfOpened(a: Arena, w: Ref, spec: Spec<Obj>, target: Obj): Arena
    requires Shaped(a) && w < |a.kinds| && a.kinds[w].WorkflowKind?
  {
    var n := |a.kinds|;
    var branch := WorkflowKind(Fluent, a.kinds[w].serviceQueue, a.kinds[w].store);
    var b := WithNew(WithNew(a, branch, SychronizedTask), branch, SychronizedTask);
    var c := WithNew(b, SpecificationKind(spec, target, n, Some(n + 1)), SychronizedTask);
    c.(builds := c.builds[w := Some(BuildState(Success, n + 2))])
  }

  /** `a` after `Else()` on `w`'s open `If`: it now builds the fail branch. */
  function Elsed(a: Arena, w: Ref): Arena
    requires w < |a.builds| && a.builds[w].Some?
  {
    a.(builds := a.builds[w := Some(a.builds[w].value.(mode := Fail))])
  }

  /** `a` after `EndIf()` on `w`'s open `If`: the specification activity is queued and the `If` closed. */
  function Ended(a: Arena, w: Ref): Arena
    requires Shaped(a) && w < |a.kinds| && a.builds[w].Some?
  {
    Enqueued(a, w, a.builds[w].value.activity).(builds := a.builds[w := None])
  }

  /**
   * Opening an `If` on a workflow `w` with none open routes what is added
   * to `w` into the new success branch, after `Else` into the new fail
   * branch, and after `EndIf` back into `w`, whose queue then ends with
   * the specification activity.
   */
  lemma IfRouting(a: Arena, w: Ref, spec: Spec<Obj>, target: Obj)
    requires ArenaValid(a) && IsFluentWorkflow(a.kinds, w) && a.builds[w].None?
    ensures var n := |a.kinds|;
      var built := IfOpened(a, w, spec, target);
      && BuildsWellFormed(built.kinds, built.builds)
      && Receiver(built.kinds, built.builds, w) == n
      && BuildsWellFormed(built.kinds, Elsed(built, w).builds)
      && Receiver(built.kinds, Elsed(built, w).builds, w) == n + 1
      && BuildsWellFormed(built.kinds, Ended(built, w).builds)
      && Receiver(built.kinds, Ended(built, w).builds, w) == w
      && Ended(built, w).fields[w].queue == a.fields[w].queue + [n + 2]
  {
    var built := IfOpened(a, w, spec, target);
    IfBuilds(a, w, spec, target, built.builds);
    IfBuilds(a, w, spec, target, Elsed(built, w).builds);
    IfBuilds(a, w, spec, target, Ended(built, w).builds);
  }

  /**
   * After `IfOpened`, the open `If`s of the other workflows are as they
   * were, so any choice `bs` for `w` that agrees with them is well-formed.
   */
  lemma IfBuilds(a: Arena, w: Ref, spec: Spec<Obj>, target: Obj, bs: seq<Option<BuildState>>)
    requires ArenaValid(a) && IsFluentWorkflow(a.kinds, w) && a.builds[w].None?
    requires var built := IfOpened(a, w, spec, target);
      |bs| == |built.kinds| && BuildWellFormed(built.kinds, bs[w], w)
      && forall r :: 0 <= r < |bs| && r != w ==> bs[r] == built.builds[r]
    ensures BuildsWellFormed(IfOpened(a, w, spec, target).kinds, bs)
  {
    var n := |a.kinds|;
    var built := IfOpened(a, w, spec, target);
    var ks := built.kinds;
    assert ks == a.kinds + [ks[n]] + [ks[n + 1]] + [ks[n + 2]];
    forall r | 0 <= r < |ks|
      ensures BuildWellFormed(ks, bs[r], r)
    {
      if r < n && r != w {
        assert ActivityValid(a, r);
        AllocateKeeps(a.kinds, ks[n], a.kinds[r], a.builds[r], r);
        AllocateKeeps(a.kinds + [ks[n]], ks[n + 1], a.kinds[r], a.builds[r], r);
        AllocateKeeps(a.kinds + [ks[n]] + [ks[n + 1]], ks[n + 2], a.kinds[r], a.builds[r], r);
      }
    }
  }

  // ---------------------------------------------------------------------
  // The builder methods
  // ---------------------------------------------------------------------

  /** `ActivityQueue.Enqueue(t)` on workflow `w`. */
  method Enqueue(e: Engine, w: Ref, t: Ref)
    requires e.Valid() && w < |e.arena.kinds| && t < |e.arena.kinds|
    modifies e
    ensures e.Valid() && e.arena == Enqueued(old(e.arena), w, t)
  {
    assert ActivityValid(e.arena, w);
    QueueStep(e.arena, w, e.arena.fields[w].queue + [t]);
    e.arena := Enqueued(e.arena, w, t);
  }

  /**
   * `Do(activity)`: the activity's type becomes SychronizedTask; with no
   * open `If` it is enqueued here and this workflow is returned; with one
   * it is passed to `Do` of the branch being built, and that branch is
   * returned.
   */
  method Do(e: Engine, w: Ref, activity: Ref) returns (wf: Ref)
    requires e.Valid() && w < |e.arena.kinds| && e.arena.kinds[w].WorkflowKind? && activity < |e.arena.kinds|
    modifies e
    ensures e.Valid() && BuildsWellFormed(old(e.arena.kinds), old(e.arena.builds))
    ensures e.arena == Enqueued(Stamped(old(e.arena), activity, SychronizedTask),
                                Receiver(old(e.arena.kinds), old(e.arena.builds), w), activity)
    ensures wf == if old(e.arena.builds[w]).None? then w else Branch(old(e.arena.kinds), old(e.arena.builds), w)
    decreases |e.arena.kinds| - w
  {
    ValidBuilds(e.arena);
    e.SetType(activity, SychronizedTask);
    if e.arena.builds[w].Some? {
      wf := Branch(e.arena.kinds, e.arena.builds, w);
      var _ := Do(e, wf, activity);
    } else {
      Enqueue(e, w, activity);
      wf := w;
    }
  }

  /**
   * `WaitFor(activity)`: the activity's type becomes Delayed; it is
   * enqueued in the workflow that receives it, which is returned.
   */
  method WaitFor(e: Engine, w: Ref, activity: Ref) returns (wf: Ref)
    requires e.Valid() && w < |e.arena.kinds| && e.arena.kinds[w].WorkflowKind? && activity < |e.arena.kinds|
    modifies e
    ensures e.Valid() && BuildsWellFormed(old(e.arena.kinds), old(e.arena.builds))
    ensures wf == Receiver(old(e.arena.kinds), old(e.arena.builds), w)
    ensures e.arena == Enqueued(Stamped(old(e.arena), activity, ActivityType.Delayed), wf, activity)
    decreases |e.arena.kinds| - w
  {
    ValidBuilds(e.arena);
    e.SetType(activity, ActivityType.Delayed);
    if e.arena.builds[w].Some? {
      wf := WaitFor(e, Branch(e.arena.kinds, e.arena.builds, w), activity);
    } else {
      Enqueue(e, w, activity);
      wf := w;
    }
  }

  /**
   * `FireAndForget(activity)`: the activity's type becomes FireAndForget;
   * it is enqueued in the workflow that receives it, which is returned.
   */
  method FireAndForget(e: Engine, w: Ref, activity: Ref) returns (wf: Ref)
    requires e.Valid() && w < |e.arena.kinds| && e.arena.kinds[w].WorkflowKind? && activity < |e.arena.kinds|
    modifies e
    ensures e.Valid() && BuildsWellFormed(old(e.arena.kinds), old(e.arena.builds))
    ensures wf == Receiver(old(e.arena.kinds), old(e.arena.builds), w)
    ensures e.arena == Enqueued(Stamped(old(e.arena), activity, ActivityType.FireAndForget), wf, activity)
    decreases |e.arena.kinds| - w
  {
    ValidBuilds(e.arena);
    e.SetType(activity, ActivityType.FireAndForget);
    if e.arena.builds[w].Some? {
      wf := FireAndForget(e, Branch(e.arena.kinds, e.arena.builds, w), activity);
    } else {
      Enqueue(e, w, activity);
      wf := w;
    }
  }

  /**
   * `And(task)`: the task's type becomes Parallel (even when `And` then
   * throws); the workflow that receives it joins it to its last activity
   * as `Joined` says and is returned.
   */
  method And(e: Engine, w: Ref, task: Ref) returns (res: Result<Ref>)
    requires e.Valid() && w < |e.arena.kinds| && e.arena.kinds[w].WorkflowKind? && task < |e.arena.kinds|
    modifies e
    ensures e.Valid() && BuildsWellFormed(old(e.arena.kinds), old(e.arena.builds))
    ensures var r := Receiver(old(e.arena.kinds), old(e.arena.builds), w);
      var stamped := Stamped(old(e.arena), task, Parallel);
      && FieldsBelow(stamped.fields[r], |stamped.kinds|)
      && match Joined(stamped, r, task)
         case Err(x) => res == Err(x) && e.arena == stamped
         case Ok(b) => res == Ok(r) && e.arena == b
    decreases |e.arena.kinds| - w
  {
    ValidBuilds(e.arena);
    ghost var a0 := e.arena;
    e.SetType(task, Parallel);
    if e.arena.builds[w].Some? {
      ghost var a1 := e.arena;
      var b := Branch(e.arena.kinds, e.arena.builds, w);
      res := And(e, b, task);
      assert Stamped(a1, task, Parallel) == a1;
      assert Receiver(a1.kinds, a1.builds, b) == Receiver(a0.kinds, a0.builds, w);
    } else {
      res := Join(e, w, task);
    }
  }

  /** The part of `And` done by the workflow `r` that receives the task. */
  method Join(e: Engine, r: Ref, task: Ref) returns (res: Result<Ref>)
    requires e.Valid() && r < |e.arena.kinds| && task < |e.arena.kinds|
    modifies e
    ensures e.Valid() && FieldsBelow(old(e.arena.fields[r]), |old(e.arena.kinds)|)
    ensures match Joined(old(e.arena), r, task)
      case Err(x) => res == Err(x) && e.arena == old(e.arena)
      case Ok(b) => res == Ok(r) && e.arena == b
  {
    assert ActivityValid(e.arena, r);
    var q := e.arena.fields[r].queue;
    if q == [] || e.arena.types[q[|q| - 1]] == ActivityType.Delayed {
      return Err(InvalidOperation);
    }
    var last := q[|q| - 1];
    if e.arena.kinds[last].ParallelKind? {
      var _ := e.ParallelAdd(last, Some(task));
    } else {
      Regroup(e, r, last, task);
    }
    res := Ok(r);
  }

  /** A last activity `last` that is not a group is replaced by a new ParallelActivity of it and the task. */
  method Regroup(e: Engine, r: Ref, last: Ref, task: Ref)
    requires e.Valid() && r < |e.arena.kinds| && task < |e.arena.kinds|
    requires e.arena.fields[r].queue != [] && last == e.arena.fields[r].queue[|e.arena.fields[r].queue| - 1]
    requires last < |e.arena.kinds|
    modifies e
    ensures e.Valid()
    ensures var a := old(e.arena);
      var p := |a.kinds|;
      var b := ParallelAdded(ParallelAdded(WithNew(a, ParallelKind([]), SychronizedTask), p, last), p, task);
      e.arena == WithFields(b, r, b.fields[r].(queue := AndQueue(a.fields[r].queue, p)))
  {
    var q := e.arena.fields[r].queue;
    var p := e.NewParallelActivity();
    var _ := e.ParallelAdd(p, Some(last));
    var _ := e.ParallelAdd(p, Some(task));
    assert ActivityValid(e.arena, r);
    QueueStep(e.arena, r, AndQueue(q, p));
    e.arena := WithFields(e.arena, r, e.arena.fields[r].(queue := AndQueue(q, p)));
  }

  /**
   * `If<T>(specification)` on a `WorkflowActivity`: an open `If` throws
   * InvalidOperationException; a specification activity driven by
   * `LastActivity` is validated like the `SpecificationActivity<T>`
   * constructor (without the success branch, which is set afterwards);
   * then the two branches are created and an `If` is opened in Success
   * mode. Nothing is queued and this workflow is returned.
   */
  method If(e: Engine, w: Ref, spec: Spec<Obj>, t: Ty) returns (res: Result<Ref>)
    requires e.Valid() && IsFluentWorkflow(e.arena.kinds, w)
    modifies e
    ensures e.Valid()
    ensures old(e.arena.builds[w]).Some? ==> res == Err(InvalidOperation) && e.arena == old(e.arena)
    ensures old(e.arena.builds[w]).None? ==>
      && FieldsBelow(old(e.arena.fields[w]), |old(e.arena.kinds)|)
      && match CapturedResult(spec, t, FieldsOf(old(e.arena), old(e.arena.fields[w].last)))
         case Err(x) => res == Err(x) && e.arena == old(e.arena)
         case Ok(v) => res == Ok(w) && e.arena == IfOpened(old(e.arena), w, spec, v)
  {
    if e.arena.builds[w].Some? {
      return Err(InvalidOperation);
    }
    assert ActivityValid(e.arena, w);
    match CapturedResult(spec, t, FieldsOf(e.arena, e.arena.fields[w].last))
    case Err(x) =>
      res := Err(x);
    case Ok(v) =>
      var k := e.arena.kinds[w];
      var s := e.Allocate(WorkflowKind(Fluent, k.serviceQueue, k.store), SychronizedTask);
      var f := e.Allocate(WorkflowKind(Fluent, k.serviceQueue, k.store), SychronizedTask);
      var p := e.Allocate(SpecificationKind(spec, v, s, Some(f)), SychronizedTask);
      BuildStep(e.arena, w, Some(BuildState(Success, p)));
      e.arena := e.arena.(builds := e.arena.builds[w := Some(BuildState(Success, p))]);
      res := Ok(w);
  }

  /**
   * `Else()`: with no open `If` it throws InvalidOperationException;
   * otherwise the open `If` now builds its fail branch, and this workflow
   * is returned.
   */
  method Else(e: Engine, w: Ref) returns (res: Result<Ref>)
    requires e.Valid() && IsFluentWorkflow(e.arena.kinds, w)
    modifies e
    ensures e.Valid()
    ensures old(e.arena.builds[w]).None? ==> res == Err(InvalidOperation) && e.arena == old(e.arena)
    ensures old(e.arena.builds[w]).Some? ==> res == Ok(w) && e.arena == Elsed(old(e.arena), w)
  {
    if e.arena.builds[w].None? {
      return Err(InvalidOperation);
    }
    assert ActivityValid(e.arena, w);
    BuildStep(e.arena, w, Some(e.arena.builds[w].value.(mode := Fail)));
    e.arena := Elsed(e.arena, w);
    res := Ok(w);
  }

  /**
   * `EndIf()`: the open `If`'s specification activity is queued here and
   * the `If` is closed; with none open the null build state is dereferenced.
   */
  method EndIf(e: Engine, w: Ref) returns (res: Result<Ref>)
    requires e.Valid() && IsFluentWorkflow(e.arena.kinds, w)
    modifies e
    ensures e.Valid()
    ensures old(e.arena.builds[w]).None? ==> res == Err(NullReference) && e.arena == old(e.arena)
    ensures old(e.arena.builds[w]).Some? ==> res == Ok(w) && e.arena == Ended(old(e.arena), w)
  {
    if e.arena.builds[w].None? {
      return Err(NullReference);
    }
    assert ActivityValid(e.arena, w);
    var p := e.arena.builds[w].value.activity;
    Enqueue(e, w, p);
    BuildStep(e.arena, w, None);
    e.arena := e.arena.(builds := e.arena.builds[w := None]);
    res := Ok(w);
  }

  /**
   * `Condition<T>(specification, onSuccess, onFailure)` on a `Workflow`: a
   * specification activity driven by the last activity the workflow ran
   * (null before any run) is constructed and queued.
   */
  method Condition(e: Engine, w: Ref, spec: Spec<Obj>, t: Ty, onSuccess: Option<Ref>, onFailure: Option<Ref>)
    returns (res: Result<Ref>)
    requires e.Valid() && w < |e.arena.kinds| && e.arena.kinds[w].WorkflowKind? && e.arena.kinds[w].flavor == Plain
    requires onSuccess.Some? ==> onSuccess.value < |e.arena.kinds|
    requires onFailure.Some? ==> onFailure.value < |e.arena.kinds|
    modifies e
    ensures e.Valid()
    ensures FieldsBelow(old(e.arena.fields[w]), |old(e.arena.kinds)|)
    ensures match SpecificationActivityKind(spec, t, FieldsOf(old(e.arena), old(e.arena.fields[w].last)), onSuccess, onFailure)
      case Err(x) => res == Err(x) && e.arena == old(e.arena)
      case Ok(k) => res == Ok(w) && e.arena == Enqueued(WithNew(old(e.arena), k, SychronizedTask), w, |old(e.arena.kinds)|)
  {
    assert ActivityValid(e.arena, w);
    var p := e.NewSpecificationActivity(spec, t, e.arena.fields[w].last, onSuccess, onFailure);
    if p.Err? {
      return Err(p.error);
    }
    Enqueue(e, w, p.value);
    res := Ok(w);
  }
}
