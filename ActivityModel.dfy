/**
 * The activity objects of FluidFlow.Activities, the observable events the
 * engine produces while running them, and the predicates that state what a
 * run does (used as the specification of the methods in `Runtime`).
 *
 * An activity is an object with identity (its `Guid Id`). Here every
 * activity lives in an arena: a `Ref` is its identity, the position of its
 * fields in the arena's sequences, handed out in allocation order. The
 * subclasses of `Activity` are the cases of `Kind`.
 */
module ActivityModel {
  import opened Errors
  import opened ObjectEx
  import opened Specifications

  /** The identity of an activity object (`Activity.Id`). */
  type Ref = nat

  /** FluidFlow.Tasks.ActivityState. */
  datatype ActivityState = NotStarted | Executing | Delayed | Completed

  /** FluidFlow.Activities.ActivityType; `SychronizedTask` (sic) is the default value of the enum. */
  datatype ActivityType = SychronizedTask | FireAndForget | Parallel | Specification | Delayed

  /** Which child of an open `If` the fluent builder is currently filling. */
  datatype SpecificationActivityMode = Success | Fail

  /** SpecificationBuildState: the open `If` of a `WorkflowActivity`. */
  datatype BuildState = BuildState(mode: SpecificationActivityMode, activity: Ref)

  /** The two workflow classes: `WorkflowActivity` (fluent, with If/Else/EndIf) and `Workflow`. */
  datatype Flavor = Fluent | Plain

  /** The concrete class of an activity, with the fields its `OnRun` reads. */
  datatype Kind =
      /** ExpressionActivity: the `Action` it wraps (None when null), and how calling it ends. */
    | ExpressionKind(action: Option<Outcome>)
      /**
       * A subclass defined outside the core (a business activity): its
       * `OnRun` stores `produces` as its `Result` and ends with `outcome`;
       * `delayed` says whether it implements `IDelayedActivity`.
       */
    | OpaqueKind(outcome: Outcome, produces: Obj, delayed: bool)
      /** ParallelActivity: its task list, in insertion order. */
    | ParallelKind(tasks: seq<Ref>)
      /** SpecificationActivity<T>: the specification, the cast result it tests, and the two branches. */
    | SpecificationKind(spec: Spec<Obj>, target: Obj, onSuccess: Ref, onFail: Option<Ref>)
      /**
       * WorkflowActivity or Workflow, with the identities of the service
       * queue and the state store it was built with.
       */
    | WorkflowKind(flavor: Flavor, serviceQueue: nat, store: nat)

  /**
   * The fields of an activity that running activities changes: the public
   * `State` and `Result`, and for the workflow classes the `ActivityQueue`
   * (head first) and the last activity handed to the executor
   * (`LastActivity`, `_lastActivity`); `[]` and `None` for the other classes.
   */
  datatype RunFields = RunFields(state: ActivityState, result: Obj, queue: seq<Ref>, last: Option<Ref>)

  /**
   * Every activity object allocated so far, by identity: its class, its
   * public `Type`, the open `If` of a `WorkflowActivity` (`None` for the
   * other classes) and its run-time fields.
   */
  datatype Arena = Arena(kinds: seq<Kind>, types: seq<ActivityType>, builds: seq<Option<BuildState>>, fields: seq<RunFields>)

  // ---------------------------------------------------------------------
  // Observable events
  // ---------------------------------------------------------------------

  /**
   * What the engine does that is observable outside the arena:
   *   - `Ran(caller, callee, outcome)`: `caller` awaited `callee.Run()`, which ended with `outcome`;
   *   - `Invoked(a)`: `a` called the user code it wraps;
   *   - `Detached(parent, a)`: `parent` started `a.Run()` in the background without awaiting it;
   *   - `QueuedForService(q, parent, task)`: `parent`'s executor called `q.AddTask(task)`;
   *   - `Saved(store, w)`: `store.Save(w)` was called.
   */
  datatype Event =
    | Ran(caller: Ref, callee: Ref, outcome: Outcome)
    | Invoked(activity: Ref)
    | Detached(parent: Ref, activity: Ref)
    | QueuedForService(serviceQueue: nat, parent: Ref, task: Option<Ref>)
    | Saved(store: nat, workflow: Ref)

  /** The activity whose own code produced an event. */
  function Actor(e: Event): Ref {
    match e
    case Ran(caller, _, _) => caller
    case Invoked(a) => a
    case Detached(parent, _) => parent
    case QueuedForService(_, parent, _) => parent
    case Saved(_, w) => w
  }

  /** The events produced by `a`'s own code, in order. */
  function ByActor(es: seq<Event>, a: Ref): (r: seq<Event>)
    ensures |r| <= |es|
  {
    if es == [] then []
    else ByActor(es[..|es| - 1], a) + (if Actor(es[|es| - 1]) == a then [es[|es| - 1]] else [])
  }

  /** The activities started (awaited or detached) by a sequence of events, in order. */
  function Dispatched(es: seq<Event>): seq<Ref> {
    if es == [] then []
    else
      var e := es[|es| - 1];
      Dispatched(es[..|es| - 1])
      + (if e.Ran? then [e.callee] else if e.Detached? then [e.activity] else [])
  }

  /** The outcomes of the awaited runs in a sequence of events, in order. */
  function RanOutcomes(es: seq<Event>): seq<Outcome> {
    if es == [] then []
    else RanOutcomes(es[..|es| - 1]) + (if es[|es| - 1].Ran? then [es[|es| - 1].outcome] else [])
  }

  /** Every event is an awaited run by `caller`. */
  predicate AllRunsBy(es: seq<Event>, caller: Ref) {
    forall i :: 0 <= i < |es| ==> es[i].Ran? && es[i].caller == caller
  }

  /** `y` is an activity of `fs` that has not started. */
  predicate Unstarted(fs: seq<RunFields>, y: Ref) {
    y < |fs| && fs[y].state == NotStarted
  }

  /** Every event was produced by `self` or by an activity that had not started in `fs`. */
  predicate ActorsFrom(es: seq<Event>, fs: seq<RunFields>, self: Option<Ref>) {
    forall i :: 0 <= i < |es| ==> Some(Actor(es[i])) == self || Unstarted(fs, Actor(es[i]))
  }

  /**
   * The exception `await Task.WhenAll(tasks)` rethrows: that of the first
   * faulted task in list order, or none.
   */
  function FirstFailure(os: seq<Outcome>): (r: Outcome)
    ensures r.Threw? <==> exists i :: 0 <= i < |os| && os[i].Threw?
  {
    if os == [] then Done
    else
      var f := FirstFailure(os[..|os| - 1]);
      if f.Threw? then f else os[|os| - 1]
  }

  /** The exception rethrown is the first one in list order. */
  lemma {:induction false} FirstFailureIsFirst(os: seq<Outcome>)
    ensures FirstFailure(os).Threw? ==>
      exists i :: 0 <= i < |os| && os[i] == FirstFailure(os) && forall j :: 0 <= j < i ==> os[j].Done?
    decreases |os|
  {
    if os != [] {
      var p := os[..|os| - 1];
      FirstFailureIsFirst(p);
      if FirstFailure(p).Threw? {
        var i :| 0 <= i < |p| && p[i] == FirstFailure(p) && forall j :: 0 <= j < i ==> p[j].Done?;
        assert os[i] == p[i];
      } else if os[|os| - 1].Threw? {
        assert forall j :: 0 <= j < |os| - 1 ==> os[j] == p[j];
      }
    }
  }

  lemma {:induction false} ByActorAppend(x: seq<Event>, y: seq<Event>, a: Ref)
    ensures ByActor(x + y, a) == ByActor(x, a) + ByActor(y, a)
    decreases |y|
  {
    if y == [] {
      assert x + y == x;
    } else {
      var y' := y[..|y| - 1];
      assert (x + y)[..|x + y| - 1] == x + y';
      assert (x + y)[|x + y| - 1] == y[|y| - 1];
      ByActorAppend(x, y', a);
    }
  }

  /** Events produced only by activities that had not started contribute nothing to a started activity's own events. */
  lemma {:induction false} ByActorOthers(es: seq<Event>, fs: seq<RunFields>, a: Ref)
    requires ActorsFrom(es, fs, None) && !Unstarted(fs, a)
    ensures ByActor(es, a) == []
    decreases |es|
  {
    if es != [] {
      ByActorOthers(es[..|es| - 1], fs, a);
    }
  }

  lemma {:induction false} DispatchedAppend(x: seq<Event>, y: seq<Event>)
    ensures Dispatched(x + y) == Dispatched(x) + Dispatched(y)
    ensures RanOutcomes(x + y) == RanOutcomes(x) + RanOutcomes(y)
    decreases |y|
  {
    if y == [] {
      assert x + y == x;
    } else {
      var y' := y[..|y| - 1];
      assert (x + y)[..|x + y| - 1] == x + y';
      assert (x + y)[|x + y| - 1] == y[|y| - 1];
      DispatchedAppend(x, y');
    }
  }

  lemma ActorsFromAppend(x: seq<Event>, y: seq<Event>, fs: seq<RunFields>, self: Option<Ref>)
    requires ActorsFrom(x, fs, self) && ActorsFrom(y, fs, self)
    ensures ActorsFrom(x + y, fs, self)
  {
  }

  // ---------------------------------------------------------------------
  // Well-formed arenas and how a run may change them
  // ---------------------------------------------------------------------

  /** Every field sequence has an entry for each allocated activity. */
  predicate Shaped(a: Arena) {
    |a.types| == |a.kinds| && |a.builds| == |a.kinds| && |a.fields| == |a.kinds|
  }

  /** Two well-shaped arenas over the same activities. */
  predicate Comparable(a0: Arena, a1: Arena) {
    Shaped(a0) && Shaped(a1) && |a1.kinds| == |a0.kinds|
  }

  /** The activities a class's fields refer to were allocated before the `n`-th. */
  predicate KindRefsBelow(k: Kind, n: nat) {
    match k
    case ParallelKind(tasks) => forall i :: 0 <= i < |tasks| ==> tasks[i] < n
    case SpecificationKind(_, _, s, f) => s < n && (f.Some? ==> f.value < n)
    case _ => true
  }

  /** `r` is a `WorkflowActivity`. */
  predicate IsFluentWorkflow(kinds: seq<Kind>, r: Ref) {
    r < |kinds| && kinds[r].WorkflowKind? && kinds[r].flavor == Fluent
  }

  /**
   * An open `If` of `w` belongs to a `WorkflowActivity` and names a
   * specification activity whose two branches are `WorkflowActivity`
   * objects created after `w`.
   */
  predicate BuildWellFormed(kinds: seq<Kind>, b: Option<BuildState>, w: Ref) {
    b.Some? ==>
      var s := b.value.activity;
      && IsFluentWorkflow(kinds, w)
      && s < |kinds| && kinds[s].SpecificationKind? && kinds[s].onFail.Some?
      && IsFluentWorkflow(kinds, kinds[s].onSuccess) && IsFluentWorkflow(kinds, kinds[s].onFail.value)
      && w < kinds[s].onSuccess && w < kinds[s].onFail.value
  }

  /** The queued and last activities were allocated before the `n`-th. */
  predicate FieldsBelow(f: RunFields, n: nat) {
    (forall i :: 0 <= i < |f.queue| ==> f.queue[i] < n) && (f.last.Some? ==> f.last.value < n)
  }

  /** Activity `r` exists, refers only to allocated activities, and an open `If` of it is well-formed. */
  ghost predicate ActivityValid(a: Arena, r: Ref) {
    && Shaped(a) && r < |a.kinds|
    && KindRefsBelow(a.kinds[r], |a.kinds|)
    && BuildWellFormed(a.kinds, a.builds[r], r)
    && FieldsBelow(a.fields[r], |a.kinds|)
  }

  /** Every allocated activity is valid. */
  ghost predicate ArenaValid(a: Arena) {
    Shaped(a) && forall r :: 0 <= r < |a.kinds| ==> ActivityValid(a, r)
  }

  /** 1 for an activity that has not started, 0 otherwise. */
  function Pending(f: RunFields): nat {
    if f.state == NotStarted then 1 else 0
  }

  /** The number of activities that have not started: it bounds how deep runs can nest. */
  function CountUnstarted(fs: seq<RunFields>): nat {
    if fs == [] then 0 else CountUnstarted(fs[..|fs| - 1]) + Pending(fs[|fs| - 1])
  }

  /** Replacing one activity's fields changes the count by that activity alone. */
  lemma {:induction false} CountUpdate(fs: seq<RunFields>, y: Ref, f: RunFields)
    requires y < |fs|
    ensures CountUnstarted(fs[y := f]) == CountUnstarted(fs) - Pending(fs[y]) + Pending(f)
    decreases |fs|
  {
    var n := |fs|;
    if y < n - 1 {
      assert fs[y := f][..n - 1] == fs[..n - 1][y := f];
      CountUpdate(fs[..n - 1], y, f);
    } else {
      assert fs[y := f][..n - 1] == fs[..n - 1];
    }
  }

  predicate IsSuffix(s: seq<Ref>, t: seq<Ref>) {
    |s| <= |t| && s == t[|t| - |s|..]
  }

  /**
   * How one activity's fields may change while something runs: they never
   * go back to NotStarted, and once started they stay as they were unless
   * the activity `mayChange`.
   */
  predicate Moved(f0: RunFields, f1: RunFields, mayChange: bool) {
    && (f1.state == NotStarted ==> f0.state == NotStarted)
    && (f0.state != NotStarted && !mayChange ==> f1 == f0)
  }

  /**
   * The frame of a run from `a0` to `a1`: classes, types and open `If`s
   * stay, no activity is created, no more activities are unstarted, and an
   * activity that had already started is untouched unless it is in `s`.
   */
  ghost predicate Evolves(a0: Arena, a1: Arena, s: set<Ref>) {
    && a1.kinds == a0.kinds && a1.types == a0.types && a1.builds == a0.builds
    && |a1.fields| == |a0.fields|
    && CountUnstarted(a1.fields) <= CountUnstarted(a0.fields)
    && forall y :: 0 <= y < |a0.fields| ==> Moved(a0.fields[y], a1.fields[y], y in s)
  }

  lemma EvolvesTrans(a0: Arena, a1: Arena, a2: Arena, s1: set<Ref>, s2: set<Ref>)
    requires Evolves(a0, a1, s1) && Evolves(a1, a2, s2)
    ensures Evolves(a0, a2, s1 + s2)
  {
  }

  /** A run that started `x` first may change `x` without it counting as a change to a started activity. */
  lemma EvolvesStart(a0: Arena, a1: Arena, a2: Arena, x: Ref)
    requires Evolves(a0, a1, {}) && Evolves(a1, a2, {x})
    requires Unstarted(a0.fields, x)
    ensures Evolves(a0, a2, {})
  {
  }

  /** What actors that had not started at a later point had not started earlier either. */
  lemma ActorsBack(es: seq<Event>, a0: Arena, a1: Arena, s: set<Ref>, self: Option<Ref>)
    requires Evolves(a0, a1, s) && ActorsFrom(es, a1.fields, self)
    ensures ActorsFrom(es, a0.fields, self)
  {
  }

  /** The events of a run that started unstarted `x` come from activities that had not started before it. */
  lemma StartActors(es: seq<Event>, a0: Arena, x: Ref, f: RunFields)
    requires Unstarted(a0.fields, x) && f.state != NotStarted
    requires ActorsFrom(es, WithFields(a0, x, f).fields, Some(x))
    ensures ActorsFrom(es, a0.fields, None)
  {
    var fs := WithFields(a0, x, f).fields;
    forall i | 0 <= i < |es|
      ensures Unstarted(a0.fields, Actor(es[i]))
    {
      if Actor(es[i]) != x {
        assert Unstarted(fs, Actor(es[i]));
      }
    }
  }

  /** `a` with the run-time fields of `y` replaced by `f`. */
  function WithFields(a: Arena, y: Ref, f: RunFields): Arena
    requires y < |a.fields|
  {
    a.(fields := a.fields[y := f])
  }

  /**
   * One step of a run of `y`: `y` leaves NotStarted (or stays started),
   * keeps a suffix of its queue and records an allocated activity as its
   * last one. The arena stays well-formed, and the step is a change a run
   * of `y` may make; when it starts `y`, it is one any run may make and one
   * fewer activity is unstarted.
   */
  lemma Step(a: Arena, y: Ref, f: RunFields)
    requires ArenaValid(a) && y < |a.kinds| && f.state != NotStarted
    requires IsSuffix(f.queue, a.fields[y].queue)
    requires f.last == a.fields[y].last || f.last.None? || f.last.value < |a.kinds|
    ensures ArenaValid(WithFields(a, y, f))
    ensures Evolves(a, WithFields(a, y, f), {y})
    ensures a.fields[y].state == NotStarted ==> Evolves(a, WithFields(a, y, f), {})
    ensures CountUnstarted(WithFields(a, y, f).fields) == CountUnstarted(a.fields) - Pending(a.fields[y])
  {
    StepValid(a, y, f);
    CountUpdate(a.fields, y, f);
  }

  lemma StepValid(a: Arena, y: Ref, f: RunFields)
    requires ArenaValid(a) && y < |a.kinds|
    requires IsSuffix(f.queue, a.fields[y].queue)
    requires f.last == a.fields[y].last || f.last.None? || f.last.value < |a.kinds|
    ensures ArenaValid(WithFields(a, y, f))
  {
    var b := WithFields(a, y, f);
    assert ActivityValid(a, y);
    var q := a.fields[y].queue;
    forall i | 0 <= i < |f.queue|
      ensures f.queue[i] < |a.kinds|
    {
      assert f.queue[i] == q[|q| - |f.queue| + i];
    }
    forall r | 0 <= r < |b.kinds|
      ensures ActivityValid(b, r)
    {
      assert ActivityValid(a, r);
    }
  }

  /** `a` with a new NotStarted activity of class `k` and type `t`, with a null result and empty workflow fields. */
  function WithNew(a: Arena, k: Kind, t: ActivityType): Arena {
    Arena(a.kinds + [k], a.types + [t], a.builds + [None], a.fields + [RunFields(NotStarted, Null, [], None)])
  }

  /** Allocating an activity whose references are to existing activities keeps the arena well-formed. */
  lemma AllocateStep(a: Arena, k: Kind, t: ActivityType)
    requires ArenaValid(a) && KindRefsBelow(k, |a.kinds|)
    ensures ArenaValid(WithNew(a, k, t))
  {
    var b := WithNew(a, k, t);
    var n := |a.kinds|;
    forall r | 0 <= r < |b.kinds|
      ensures ActivityValid(b, r)
    {
      if r < n {
        assert ActivityValid(a, r);
        assert b.kinds[r] == a.kinds[r] && b.builds[r] == a.builds[r] && b.fields[r] == a.fields[r];
        AllocateKeeps(a.kinds, k, a.kinds[r], a.builds[r], r);
      }
    }
  }

  lemma AllocateKeeps(kinds: seq<Kind>, k: Kind, kr: Kind, b: Option<BuildState>, r: Ref)
    requires KindRefsBelow(kr, |kinds|) && BuildWellFormed(kinds, b, r)
    ensures KindRefsBelow(kr, |kinds| + 1) && BuildWellFormed(kinds + [k], b, r)
  {
    var ks := kinds + [k];
    if b.Some? {
      var s := b.value.activity;
      assert ks[s] == kinds[s] && ks[r] == kinds[r];
      assert ks[kinds[s].onSuccess] == kinds[kinds[s].onSuccess];
      assert ks[kinds[s].onFail.value] == kinds[kinds[s].onFail.value];
    }
  }

  /** `a` with the class of `p` replaced by a task list of existing activities. */
  lemma SetKindStep(a: Arena, p: Ref, k: Kind)
    requires ArenaValid(a) && p < |a.kinds| && a.kinds[p].ParallelKind? && k.ParallelKind?
    requires KindRefsBelow(k, |a.kinds|)
    ensures ArenaValid(a.(kinds := a.kinds[p := k]))
  {
    var b := a.(kinds := a.kinds[p := k]);
    forall r | 0 <= r < |b.kinds|
      ensures ActivityValid(b, r)
    {
      assert ActivityValid(a, r);
    }
  }

  /** Changing the public `Type` of `r` keeps the arena well-formed. */
  lemma SetTypeStep(a: Arena, r: Ref, t: ActivityType)
    requires ArenaValid(a) && r < |a.kinds|
    ensures ArenaValid(a.(types := a.types[r := t]))
  {
    var b := a.(types := a.types[r := t]);
    forall y | 0 <= y < |b.kinds|
      ensures ActivityValid(b, y)
    {
      assert ActivityValid(a, y);
    }
  }

  /**
   * `a` after `ParallelActivity.Add(t)` on `p`: an activity whose identity
   * is already in the list is ignored; otherwise its type becomes Parallel
   * and it is appended.
   */
  function ParallelAdded(a: Arena, p: Ref, t: Ref): Arena
    requires p < |a.kinds| && a.kinds[p].ParallelKind? && t < |a.types|
  {
    var tasks := a.kinds[p].tasks;
    if t in tasks then a
    else a.(kinds := a.kinds[p := ParallelKind(tasks + [t])], types := a.types[t := Parallel])
  }

  /** `a` with the public `Type` of `t` set to `ty`. */
  function Stamped(a: Arena, t: Ref, ty: ActivityType): Arena
    requires t < |a.types|
  {
    a.(types := a.types[t := ty])
  }

  /** `a` with `t` enqueued at the tail of workflow `w`'s queue. */
  function Enqueued(a: Arena, w: Ref, t: Ref): Arena
    requires w < |a.fields|
  {
    WithFields(a, w, a.fields[w].(queue := a.fields[w].queue + [t]))
  }

  /** Replacing a workflow's queue by one of allocated activities keeps the arena well-formed. */
  lemma QueueStep(a: Arena, w: Ref, q: seq<Ref>)
    requires ArenaValid(a) && w < |a.kinds|
    requires forall i :: 0 <= i < |q| ==> q[i] < |a.kinds|
    ensures ArenaValid(WithFields(a, w, a.fields[w].(queue := q)))
  {
    var b := WithFields(a, w, a.fields[w].(queue := q));
    assert ActivityValid(a, w);
    forall r | 0 <= r < |b.kinds|
      ensures ActivityValid(b, r)
    {
      assert ActivityValid(a, r);
    }
  }

  /** Opening, changing or closing a well-formed `If` of `w` keeps the arena well-formed. */
  lemma BuildStep(a: Arena, w: Ref, bs: Option<BuildState>)
    requires ArenaValid(a) && w < |a.kinds| && BuildWellFormed(a.kinds, bs, w)
    ensures ArenaValid(a.(builds := a.builds[w := bs]))
  {
    var b := a.(builds := a.builds[w := bs]);
    forall r | 0 <= r < |b.kinds|
      ensures ActivityValid(b, r)
    {
      assert ActivityValid(a, r);
    }
  }

  /** Every open `If` in the arena is well-formed. */
  ghost predicate BuildsWellFormed(kinds: seq<Kind>, builds: seq<Option<BuildState>>) {
    |builds| == |kinds| && forall r :: 0 <= r < |kinds| ==> BuildWellFormed(kinds, builds[r], r)
  }

  lemma ValidBuilds(a: Arena)
    requires ArenaValid(a)
    ensures BuildsWellFormed(a.kinds, a.builds)
  {
    forall r | 0 <= r < |a.kinds|
      ensures BuildWellFormed(a.kinds, a.builds[r], r)
    {
      assert ActivityValid(a, r);
    }
  }

  /**
   * The workflow an open `If` of `w` routes to: its specification
   * activity's success branch in Success mode, its fail branch in Fail mode.
   */
  function Branch(kinds: seq<Kind>, builds: seq<Option<BuildState>>, w: Ref): (b: Ref)
    requires BuildsWellFormed(kinds, builds) && w < |kinds| && builds[w].Some?
    ensures w < b && IsFluentWorkflow(kinds, b)
  {
    assert BuildWellFormed(kinds, builds[w], w);
    var st := builds[w].value;
    var k := kinds[st.activity];
    if st.mode == Success then k.onSuccess else k.onFail.value
  }

  /**
   * The workflow that receives an activity added to `w`: `w` itself when
   * no `If` is open, otherwise whatever receives it in the branch the open
   * `If` routes to.
   */
  ghost function Receiver(kinds: seq<Kind>, builds: seq<Option<BuildState>>, w: Ref): (r: Ref)
    requires BuildsWellFormed(kinds, builds) && w < |kinds| && kinds[w].WorkflowKind?
    ensures w <= r < |kinds| && kinds[r].WorkflowKind? && builds[r].None?
    ensures r == w <==> builds[w].None?
    decreases |kinds| - w
  {
    if builds[w].None? then w else Receiver(kinds, builds, Branch(kinds, builds, w))
  }

  /** The run-time fields of a possibly-null activity reference. */
  function FieldsOf(a: Arena, c: Option<Ref>): Option<RunFields>
    requires c.Some? ==> c.value < |a.fields|
  {
    if c.Some? then Some(a.fields[c.value]) else None
  }

  /**
   * The validation a `SpecificationActivity<T>` constructor applies to the
   * specification and the driving activity (with run-time fields
   * `completed`, None when null), giving the driving result cast to `T`.
   */
  function CapturedResult(spec: Spec<Obj>, t: Ty, completed: Option<RunFields>): (r: Result<Obj>)
    ensures r.Ok? <==>
      spec != NullSpec && completed.Some? && completed.value.state == Completed && IsInstance(completed.value.result, t)
    ensures r.Ok? ==> r.value == completed.value.result
    ensures r.Err? ==> r.error == (if spec == NullSpec || completed.None? then ArgumentNull else InvalidOperation)
  {
    if spec == NullSpec || completed.None? then Err(ArgumentNull)
    else if completed.value.state != Completed || completed.value.result == Null then Err(InvalidOperation)
    else
      var (ok, v) := TryCast(completed.value.result, t);
      if !ok then Err(InvalidOperation) else Ok(v)
  }

  /**
   * `new SpecificationActivity<T>(specification, completedActivity,
   * onSuccess, onFail)`: a null specification, driving activity or success
   * branch throws ArgumentNullException; a driving activity that is not
   * Completed, has a null result, or whose result is not a `T` throws
   * InvalidOperationException; otherwise the class of the new activity.
   */
  function SpecificationActivityKind(spec: Spec<Obj>, t: Ty, completed: Option<RunFields>,
                                     onSuccess: Option<Ref>, onFail: Option<Ref>): (r: Result<Kind>)
    ensures r.Ok? <==> onSuccess.Some? && CapturedResult(spec, t, completed).Ok?
    ensures r.Ok? ==> r.value == SpecificationKind(spec, completed.value.result, onSuccess.value, onFail)
    ensures r.Err? && (spec == NullSpec || completed.None? || onSuccess.None?) ==> r.error == ArgumentNull
    ensures r.Err? && spec != NullSpec && completed.Some? && onSuccess.Some? ==> r.error == InvalidOperation
  {
    if spec == NullSpec || completed.None? || onSuccess.None? then Err(ArgumentNull)
    else
      match CapturedResult(spec, t, completed)
      case Err(e) => Err(e)
      case Ok(v) => Ok(SpecificationKind(spec, v, onSuccess.value, onFail))
  }

  /** The activity handed to `IServiceQueue.AddTask`: `activity as IDelayedActivity`, null when it is not one. */
  function DelayedView(kinds: seq<Kind>, h: Ref): Option<Ref>
    requires h < |kinds|
  {
    if kinds[h].OpaqueKind? && kinds[h].delayed then Some(h) else None
  }

  /**
   * What the executor of workflow `w`, of class `k`, does after the Delayed
   * head `h` ran: it hands `h` to the service queue and saves `w`.
   */
  function Paused(k: Kind, w: Ref, kinds: seq<Kind>, h: Ref): seq<Event>
    requires k.WorkflowKind? && h < |kinds|
  {
    [QueuedForService(k.serviceQueue, w, DelayedView(kinds, h)), Saved(k.store, w)]
  }

  /** `es` ends with `tail`. */
  predicate EndsWith(es: seq<Event>, tail: seq<Event>) {
    |tail| <= |es| && es[|es| - |tail|..] == tail
  }

  lemma EndsWithAppended(x: seq<Event>, tail: seq<Event>, y: seq<Event>)
    requires EndsWith(x, tail)
    ensures EndsWith(x + y, tail + y)
  {
    assert (x + y)[|x + y| - |tail + y|..] == x[|x| - |tail|..] + y;
  }

  lemma EndsWithPrefixed(x: seq<Event>, y: seq<Event>, tail: seq<Event>)
    requires EndsWith(y, tail)
    ensures EndsWith(x + y, tail)
  {
    assert (x + y)[|x + y| - |tail|..] == y[|y| - |tail|..];
  }

  // ---------------------------------------------------------------------
  // What running an activity does
  // ---------------------------------------------------------------------

  /**
   * `Activity.Run()` on `x`: an activity that has left NotStarted fails with
   * InvalidOperationException and nothing changes; otherwise it becomes
   * Executing and its `OnRun` does the rest.
   */
  ghost predicate RunPost(a0: Arena, a1: Arena, x: Ref, res: Outcome, inner: seq<Event>)
    requires Comparable(a0, a1) && x < |a0.kinds|
  {
    if a0.fields[x].state != NotStarted then res == Threw(InvalidOperation) && a1 == a0 && inner == []
    else OnRunPost(WithFields(a0, x, a0.fields[x].(state := Executing)), a1, x, res, inner)
  }

  /** What each class's `OnRun` does, started from `a0`. */
  ghost predicate OnRunPost(a0: Arena, a1: Arena, x: Ref, res: Outcome, inner: seq<Event>)
    requires Comparable(a0, a1) && x < |a0.kinds|
  {
    match a0.kinds[x]
    case ExpressionKind(action) =>
      // Task.Run(null) throws ArgumentNullException
      && a1 == a0
      && inner == (if action.Some? then [Invoked(x)] else [])
      && res == (if action.Some? then action.value else Threw(ArgumentNull))
    case OpaqueKind(outcome, produces, _) =>
      a1 == WithFields(a0, x, a0.fields[x].(result := produces)) && inner == [Invoked(x)] && res == outcome
    case ParallelKind(tasks) =>
      var own := ByActor(inner, x);
      && a1.fields[x] == a0.fields[x]
      && AllRunsBy(own, x) && Dispatched(own) == tasks
      && res == FirstFailure(RanOutcomes(own))
    case SpecificationKind(_, _, _, _) =>
      SpecificationPost(a0, a1, x, res, inner)
    case WorkflowKind(_, _, _) =>
      WorkflowPost(a0, a1, x, res, inner)
  }

  /**
   * SpecificationActivity.OnRun: it marks itself Completed first, then
   * evaluates the specification on the stored result and runs the success
   * branch when it holds, else the fail branch if there is one.
   */
  ghost predicate SpecificationPost(a0: Arena, a1: Arena, x: Ref, res: Outcome, inner: seq<Event>)
    requires Comparable(a0, a1) && x < |a0.kinds| && a0.kinds[x].SpecificationKind?
  {
    var k := a0.kinds[x];
    var own := ByActor(inner, x);
    var done := WithFields(a0, x, a0.fields[x].(state := Completed));
    && a1.fields[x] == done.fields[x]
    && match k.spec.IsSatisfiedBy(k.target)
       case Err(e) => res == Threw(e) && inner == [] && a1 == done
       case Ok(true) => own == [Ran(x, k.onSuccess, res)]
       case Ok(false) =>
         if k.onFail.None? then res == Done && inner == [] && a1 == done
         else own == [Ran(x, k.onFail.value, res)]
  }

  /**
   * `q1` is what is left of queue `q0` once the activities `d` were
   * dispatched from its head, in queue order: those that left the queue
   * were not Delayed activities, and at most one more, the head of `q1`,
   * was dispatched without leaving it, and only when the loop `stopped`
   * there.
   */
  predicate Drained(types: seq<ActivityType>, q0: seq<Ref>, q1: seq<Ref>, d: seq<Ref>, stopped: bool) {
    && IsSuffix(q1, q0)
    && var removed := |q0| - |q1|;
    && (|d| == removed || (|d| == removed + 1 && stopped))
    && |d| <= |q0| && d == q0[..|d|]
    && (forall i :: 0 <= i < removed ==> q0[i] < |types| && types[q0[i]] != ActivityType.Delayed)
  }

  /**
   * The progress of a workflow's `OnRun` loop from `a0` to `a1`: the queue
   * is `Drained` by the activities the workflow dispatched, where stopping
   * at the head means the run failed or the head is a Delayed activity that
   * paused the workflow; the last activity is the last one dispatched; the
   * result did not change.
   */
  ghost predicate Progress(a0: Arena, a1: Arena, w: Ref, res: Outcome, inner: seq<Event>)
    requires Comparable(a0, a1) && w < |a0.kinds|
  {
    var f0 := a0.fields[w];
    var f1 := a1.fields[w];
    var d := Dispatched(ByActor(inner, w));
    var paused := f1.state == ActivityState.Delayed && f1.queue != []
                  && f1.queue[0] < |a0.types| && a0.types[f1.queue[0]] == ActivityType.Delayed;
    && f1.result == f0.result
    && Drained(a0.types, f0.queue, f1.queue, d, res.Threw? || paused)
    && f1.last == (if d == [] then f0.last else Some(d[|d| - 1]))
  }

  /**
   * A workflow's `OnRun` (WorkflowActivity.OnRun and Workflow.OnRun),
   * entered with the workflow Executing (from `Run`) or Delayed:
   *   - an empty queue: a WorkflowActivity throws, a Workflow does nothing;
   *   - a Delayed workflow stops at once (a Workflow saves itself first);
   *   - otherwise at least one activity is dispatched, the loop makes
   *     `Progress`, and it ends with the queue drained or the workflow
   *     Delayed (a Workflow then saves itself), or with the exception of
   *     the run that failed, the failing activity still at the head.
   */
  ghost predicate WorkflowPost(a0: Arena, a1: Arena, w: Ref, res: Outcome, inner: seq<Event>)
    requires Comparable(a0, a1) && w < |a0.kinds| && a0.kinds[w].WorkflowKind?
  {
    var k := a0.kinds[w];
    var q0 := a0.fields[w].queue;
    if q0 == [] then
      a1 == a0 && inner == [] && res == (if k.flavor == Fluent then Threw(InvalidOperation) else Done)
    else if a0.fields[w].state == ActivityState.Delayed then
      a1 == a0 && res == Done && inner == (if k.flavor == Plain then [Saved(k.store, w)] else [])
    else
      QueueRun(a0, a1, w, res, inner)
  }

  /**
   * The loop of a workflow's `OnRun` over a non-empty queue: at least one
   * activity is dispatched, the loop makes `Progress`, and it ends with the
   * queue drained or the workflow Delayed (a Workflow then saves itself),
   * or with the exception of the run that failed, the failing activity
   * still at the head.
   */
  ghost predicate QueueRun(a0: Arena, a1: Arena, w: Ref, res: Outcome, inner: seq<Event>)
    requires Comparable(a0, a1) && w < |a0.kinds| && a0.kinds[w].WorkflowKind?
  {
    var k := a0.kinds[w];
    var q0 := a0.fields[w].queue;
    var f1 := a1.fields[w];
    var own := ByActor(inner, w);
    && Progress(a0, a1, w, res, inner)
    && Dispatched(own) != []
    && (res.Done? ==> f1.queue == [] || f1.state == ActivityState.Delayed)
    && (res.Done? && f1.state == ActivityState.Delayed ==>
          && f1.queue != [] && f1.queue[0] < |a0.kinds|
          && EndsWith(own, Paused(k, w, a0.kinds, f1.queue[0]) + (if k.flavor == Plain then [Saved(k.store, w)] else [])))
    && (res.Threw? ==>
          && |Dispatched(own)| == |q0| - |f1.queue| + 1
          && f1.queue != [] && own != [] && own[|own| - 1] == Ran(w, f1.queue[0], res))
  }

  /**
   * WorkflowExecutor.Execute on workflow `p`: it peeks the head of the
   * queue (an empty queue throws InvalidOperationException) and, by the
   * head's type,
   *   - SychronizedTask, Parallel, Specification: marks `p` Executing, awaits
   *     the head's run and dequeues it only if the run succeeded;
   *   - FireAndForget: marks `p` Executing, starts the head without awaiting
   *     it and dequeues it;
   *   - Delayed: awaits the head's run; on success hands it to the service
   *     queue, marks `p` Delayed and saves `p`, leaving the head queued.
   */
  ghost predicate ExecutePost(a0: Arena, a1: Arena, p: Ref, res: Outcome, inner: seq<Event>)
    requires Comparable(a0, a1) && p < |a0.kinds| && a0.kinds[p].WorkflowKind?
  {
    var k := a0.kinds[p];
    var f := a0.fields[p];
    var own := ByActor(inner, p);
    if f.queue == [] then
      res == Threw(InvalidOperation) && a1 == a0 && inner == []
    else
      var h := f.queue[0];
      && h < |a0.kinds|
      && match a0.types[h]
         case FireAndForget =>
           && res == Done && inner == [Detached(p, h)]
           && a1 == WithFields(a0, p, f.(state := Executing, queue := f.queue[1..]))
         case Delayed =>
           && own == [Ran(p, h, res)] + (if res.Done? then Paused(k, p, a0.kinds, h) else [])
           && a1.fields[p] == (if res.Done? then f.(state := ActivityState.Delayed) else f)
         case _ =>
           && own == [Ran(p, h, res)]
           && a1.fields[p] == f.(state := Executing, queue := if res.Done? then f.queue[1..] else f.queue)
  }
}
