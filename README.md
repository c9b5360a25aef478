# FluidFlow activities, workflows and specifications in Dafny

FluidFlow builds workflows out of *activities*. An activity is an object with an identity (`Id`), a `State` (NotStarted, Executing, Delayed, Completed), a `Type` that tells the workflow's executor how to run it (SychronizedTask, FireAndForget, Parallel, Specification, Delayed), and a `Result`. `Run()` starts an activity exactly once and hands over to the class's `OnRun`. The classes are:

- an `ExpressionActivity`, which wraps an action;
- a `ParallelActivity`, which runs a list of tasks and waits for all of them;
- a `SpecificationActivity<T>`, which tests the result of a completed activity against a specification and runs a success branch or a fail branch;
- the two workflow classes, `WorkflowActivity` (fluent, with `If`/`Else`/`EndIf`) and `Workflow`.

A workflow keeps a queue of activities. Its `OnRun` loop records the head as the last activity and asks its `WorkflowExecutor` to handle it. The executor either awaits the head and dequeues it, or starts it without waiting, or runs it, hands it to a service queue and pauses the workflow (Delayed). The fluent builder methods (`Do`, `WaitFor`, `FireAndForget`, `And`, `If`, `Else`, `EndIf`, `Condition`) fill the queue. Specifications (`ExpressionSpecification`, `And`, `Or`, `Not`) are boolean predicates that use C#'s short-circuit operators.

The project has these modules:

- `Errors`: null references as `Option`, the .NET exceptions the engine raises, and `Outcome`/`Result` for calls that may throw.
- `ObjectEx`: `TryCast<T>` over a small model of boxed objects and their runtime types.
- `Specifications`: the specification classes as a datatype, with their evaluation and its laws.
- `ActivityModel`: the activity objects as an *arena* and the observable events of a run.
  - Every activity allocated so far is kept by identity: its class (`Kind`), its `Type`, the open `If` of a `WorkflowActivity`, and its run-time fields.
  - The predicates (`RunPost`, `OnRunPost`, `SpecificationPost`, `WorkflowPost` with its queue-draining part `QueueRun`, `ExecutePost`) state what each run does.
  - The functions (`Joined`, `IfOpened`, `Elsed`, `Ended`, `Enqueued`, `Stamped`) state what each builder call does.
- `Runtime`: class `Engine`, whose methods are the constructors, the property setters, `Run`, the `OnRun` overrides and `WorkflowExecutor.Execute`.
  - These methods call each other recursively, as the C# methods do.
  - Each one returns the outcome of the task it models (`Done`, or the exception it throws), together with a ghost log of the events it produced.
  - The events are: a run awaited, user code invoked, a task started in the background, a task handed to the service queue, a workflow saved.
- `Builder`: the fluent builder methods of both workflow classes, proved against the arena functions.
- `Scenarios`: small whole-object runs taken from the sample application and the unit tests.

Termination of the mutually recursive run methods follows from the fact that `Run()` succeeds at most once per activity. The measure is the number of activities not yet started.

Where the code and its unit tests disagree, the model follows the code:

- `Workflow.OnRun` returns at once on an empty queue, although a unit test expects it to throw (`Scenarios.EmptyWorkflows`).
- `Not(specification)` negates its argument and ignores its receiver, so the unit test that selects "women that can drink" selects every woman (`Specifications.NotMaleIgnoresDrinkingAge`).
- `isMale.Or(canDrink)` selects women aged 21 or more, although the unit test asserts that it selects none (`Specifications.MenOrDrinkers`).

In the fluent chain, `Do`, `WaitFor`, `FireAndForget` and `And` called inside an open `If` return the *branch* workflow, not the outer one. The sample's `.If(..).WaitFor(..).Else()` therefore calls `Else()` on a workflow with no open `If`, which throws (`Scenarios.BranchReturnedByWaitFor`). The sample chain fails even earlier: `If` needs a completed `LastActivity`, and a workflow that has not run has none (`Scenarios.SampleChainIf`).

## Model

| member | source | states |
|---|---|---|
| ObjectEx.TryCast | src/FluidFlow/Ex/ObjectEx.cs:5-15 | the flag is true exactly for a non-null object that is a `T`; the out value is then the object itself, and `default(T)` otherwise |
| ObjectEx.NullNeverCasts | src/FluidFlow/Ex/ObjectEx.cs:7-14 | null never casts, for every `T`, and yields `default(T)` |
| ObjectEx.CastIsIdempotent | src/FluidFlow/Ex/ObjectEx.cs:7-10 | casting the result of a successful cast succeeds again with the same value |
| Specifications.Spec.And | src/FluidFlow/Specification/Specification.cs:17-20 | the composite holds exactly when the receiver and the argument hold, and answers false exactly when the receiver is false or the receiver is true and the argument false |
| Specifications.Spec.Or | src/FluidFlow/Specification/Specification.cs:27-30 | the composite is false exactly when both are false, and true exactly when the receiver is true or the receiver is false and the argument true |
| Specifications.Spec.Not | src/FluidFlow/Specification/Specification.cs:37-40 | the composite negates the argument's answer and passes on its exception; the receiver plays no part |
| Specifications.NewExpressionSpecification | src/FluidFlow/Specification/ExpressionSpecification.cs:14-20 | a null expression throws ArgumentNullException; otherwise the specification answers the expression's value for every target and never throws |
| Specifications.NewAndSpecification | src/FluidFlow.Tests/Specification/AndSpecificationTests.cs:74-95 | the constructor as its unit tests expect it: ArgumentNullException exactly when an operand is null; otherwise it evaluates like `left.And(right)` and is null-free when its operands are |
| Specifications.NewOrSpecification | src/FluidFlow/Specification/OrSpecification.cs:13-17 | the corrected constructor: ArgumentNullException exactly when an operand is null; otherwise it evaluates like `left.Or(right)` |
| Specifications.NewNotSpecification | src/FluidFlow/Specification/NotSpecification.cs:11-14 | the corrected constructor: ArgumentNullException exactly for a null operand; otherwise it negates the operand's answer |
| Specifications.NullFreeNeverThrows | src/FluidFlow/Specification/AndSpecification.cs:24-27 | a specification with no null operand never throws |
| Specifications.BooleanSemantics | src/FluidFlow/Specification/OrSpecification.cs:24-27 | on null-free operands, And, Or and Not are the boolean connectives |
| Specifications.DoubleNegation | src/FluidFlow/Specification/NotSpecification.cs:21-24 | Not of Not gives the original answer, or the same exception |
| Specifications.DeMorgan | src/FluidFlow/Specification/NotSpecification.cs:21-24 | De Morgan's laws hold for the composites, exceptions included |
| Specifications.NotIgnoresReceiver | src/FluidFlow/Specification/Specification.cs:37-40 | `a.Not(s)` and `b.Not(s)` are the same specification for every receiver `a`, `b` |
| Specifications.ConsultedLeaves | src/FluidFlow/Specification/AndSpecification.cs:26 | evaluation walks leaves and null operands only; it throws exactly when the last one it reaches is null, so a null operand that short-circuiting skips is harmless |
| Specifications.AndShortCircuits | src/FluidFlow/Specification/AndSpecification.cs:26 | And consults its left operand always, and its right operand exactly when the left one is true |
| Specifications.OrShortCircuits | src/FluidFlow/Specification/OrSpecification.cs:26 | Or consults its left operand always, and its right operand exactly when the left one is false |
| Specifications.TruthTables | src/FluidFlow.Tests/Specification/AndSpecificationTests.cs:14-70 | the And, Or and Not truth tables the unit tests check with mocked operands |
| Specifications.NullOperandAccepted | src/FluidFlow/Specification/AndSpecification.cs:13-17 | as written, a composite over a null operand is built; it throws NullReferenceException only when evaluation reaches the null |
| Specifications.EqualsTenSpecification | src/FluidFlow.Tests/Specification/ExpressionSpecificationTests.cs:10-46 | `o => o == 10` accepts 10 and rejects 9, 11 and 101; a null expression throws ArgumentNullException |
| Specifications.CollegeAgedMen | src/FluidFlow.Tests/Specification/SpecificationTests.cs:32-46 | `isMale.And(collegeAged)` selects exactly the men aged 18 to 27 |
| Specifications.MenOrDrinkers | src/FluidFlow.Tests/Specification/SpecificationTests.cs:49-63 | `isMale.Or(canDrink)` selects exactly the men and everyone aged 21 or more, a woman of 25 included |
| Specifications.NotMaleIgnoresDrinkingAge | src/FluidFlow.Tests/Specification/SpecificationTests.cs:66-80 | `canDrink.Not(isMale)` selects exactly the women, a girl of 16 included |
| ActivityModel.FirstFailure | src/FluidFlow/Activities/ParallelActivity.cs:61 | awaiting all tasks throws exactly when one of them failed |
| ActivityModel.FirstFailureIsFirst | src/FluidFlow/Activities/ParallelActivity.cs:61 | a failure is rethrown, and it is the first one in task-list order |
| ActivityModel.Branch | src/FluidFlow/Activities/WorkflowActivity.cs:267-282 | the branch an open `If` is building is a `WorkflowActivity` allocated after its owner |
| ActivityModel.Receiver | src/FluidFlow/Activities/WorkflowActivity.cs:72-87 | the workflow that finally receives a builder call is the workflow itself exactly when it has no open `If`, and otherwise a later workflow with no open `If` |
| ActivityModel.CapturedResult | src/FluidFlow/Activities/SpecificationActivity.cs:39-52 | a driving result is captured exactly when the specification and the driving activity are not null, the activity is Completed, and its result is a `T`; a null throws ArgumentNullException, anything else InvalidOperationException |
| ActivityModel.SpecificationActivityKind | src/FluidFlow/Activities/SpecificationActivity.cs:33-57 | the constructor succeeds exactly when the success branch is not null and the result is captured; the activity then holds the specification, the cast result and both branches; the error is ArgumentNullException for a null argument and InvalidOperationException otherwise |
| Runtime.Engine.Allocate | src/FluidFlow/Activities/Activity.cs:38-42 | a new activity gets a fresh identity and is NotStarted with a null result; nothing else changes |
| Runtime.Engine.NewExpressionActivity | src/FluidFlow/Activities/Activity.cs:69-73 | a new ExpressionActivity of the given type, wrapping the action |
| Runtime.Engine.NewOpaqueActivity | src/FluidFlow/Activities/Activity.cs:38-42 | a new activity of a class defined outside the core, of the default type |
| Runtime.Engine.NewParallelActivity | src/FluidFlow/Activities/ParallelActivity.cs:20-23 | a new ParallelActivity with no tasks |
| Runtime.Engine.NewParallelActivityFrom | src/FluidFlow/Activities/ParallelActivity.cs:29-36 | ArgumentNullException exactly for a null or empty collection, and then nothing is allocated; otherwise the list is kept as given |
| Runtime.Engine.ParallelAdd | src/FluidFlow/Activities/ParallelActivity.cs:42-52 | a null task throws ArgumentNullException; a task already in the list changes nothing; otherwise the task becomes Parallel and is appended |
| Runtime.Engine.NewSpecificationActivity | src/FluidFlow/Activities/SpecificationActivity.cs:33-71 | allocates the activity `SpecificationActivityKind` describes, or throws its error and allocates nothing |
| Runtime.Engine.NewWorkflow | src/FluidFlow/Activities/WorkflowActivity.cs:39-49 | ArgumentNullException exactly when the service queue or the store is null; otherwise a new empty workflow of either class (also Workflow.cs:30-40) |
| Runtime.Engine.SetLastActivity | src/FluidFlow/Activities/WorkflowActivity.cs:24 | the `LastActivity` setter changes that field only |
| Runtime.Engine.SetState | src/FluidFlow/Activities/Activity.cs:15 | the `State` setter changes that field only |
| Runtime.Engine.SetType | src/FluidFlow/Activities/Activity.cs:25 | the `Type` setter changes that field only |
| Runtime.Engine.Run | src/FluidFlow/Activities/Activity.cs:54-61 | an activity that has started throws InvalidOperationException and nothing changes; otherwise it becomes Executing and runs its `OnRun`; afterwards it is never NotStarted again; only activities that had not started change, and every event comes from one of them |
| Runtime.Engine.OnRun | src/FluidFlow/Activities/Activity.cs:75-78 | dispatch to the class's `OnRun`; an ExpressionActivity invokes its action, and a null action throws ArgumentNullException |
| Runtime.Engine.OnRunParallel | src/FluidFlow/Activities/ParallelActivity.cs:58-62 | the activity dispatches exactly its task list, in order, and rethrows the first failure; its own fields do not change |
| Runtime.Engine.OnRunSpecification | src/FluidFlow/Activities/SpecificationActivity.cs:77-90 | the activity is Completed first; the specification's exception propagates; a true answer runs the success branch, a false one runs the fail branch or nothing when there is none |
| Runtime.Engine.OnRunWorkflow | src/FluidFlow/Activities/WorkflowActivity.cs:234-247 | an empty queue throws in a WorkflowActivity and returns in a Workflow (Workflow.cs:139-152); a Delayed workflow stops, a Workflow saving itself; otherwise the loop runs as `DrainQueue` states |
| Runtime.Engine.DrainQueue | src/FluidFlow/Activities/WorkflowActivity.cs:239-246 | the queue is drained in order by the dispatched activities, at least one; the last activity is the last one dispatched; the loop ends with an empty queue, with the failure of the head still queued, or paused at a Delayed head, its own events then ending with the hand-over to the service queue and the executor's save, followed in a Workflow by a second save (Workflow.cs:143-146) |
| Runtime.Engine.WorkflowIteration | src/FluidFlow/Activities/WorkflowActivity.cs:244-245 | one loop pass keeps the drain invariant and shortens the queue, or pauses or fails at the head |
| Runtime.Engine.Execute | src/FluidFlow/Activities/WorkflowExecutor.cs:44-73 | an empty queue throws InvalidOperationException; otherwise the head is handled by its Type as `ExecutePost` states |
| Runtime.Engine.ExecuteAwaited | src/FluidFlow/Activities/WorkflowExecutor.cs:50-56 | the workflow becomes Executing, the head is awaited and dequeued only when its run succeeded |
| Runtime.Engine.ExecuteDetached | src/FluidFlow/Activities/WorkflowExecutor.cs:58-62 | the workflow becomes Executing, the head is started in the background and dequeued |
| Runtime.Engine.ExecuteDelayed | src/FluidFlow/Activities/WorkflowExecutor.cs:64-69 | the head is awaited; on success it is handed to the service queue (null unless it is an IDelayedActivity), the workflow becomes Delayed and is saved, and the head stays queued |
| Runtime.ParallelStep | src/FluidFlow/Activities/ParallelActivity.cs:60-61 | one more awaited task extends the dispatched list by that task and updates the first failure |
| Runtime.SaveStep | src/FluidFlow/Activities/Workflow.cs:143-146 | saving adds one own event and dispatches nothing |
| Runtime.ExecuteOwn | src/FluidFlow/Activities/WorkflowExecutor.cs:44-73 | what one executor call does to its workflow: it dispatches the head alone and either dequeues it, keeps it after a failure, or keeps it and pauses the workflow |
| Runtime.DrainStep | src/FluidFlow/Activities/WorkflowExecutor.cs:55 | dequeuing a head that is not Delayed, or stopping at it, keeps the queue drained in order |
| Runtime.WorkflowStep | src/FluidFlow/Activities/WorkflowActivity.cs:239-246 | one executor call inside the loop preserves the drain invariant, on failure leaves the failing head queued, and on a pause ends the workflow's own events with the hand-over and the save |
| Runtime.PauseCarried | src/FluidFlow/Activities/WorkflowExecutor.cs:64-69 | a pause reported by one executor call stays at the end of the workflow's own events over the whole loop |
| Runtime.PausedExit | src/FluidFlow/Activities/Workflow.cs:143-146 | a loop leaving at a pause meets `QueueRun`: a Workflow adds a second save, a WorkflowActivity (WorkflowActivity.cs:241-242) adds nothing |
| Runtime.SavedExit | src/FluidFlow/Activities/Workflow.cs:143-146 | the Workflow's own save after the executor's keeps the drain invariant and ends its events with hand-over, save, save |
| Runtime.LoopExit | src/FluidFlow/Activities/WorkflowActivity.cs:239-246 | a loop that emptied its queue, or whose last executor call threw with the head still queued, meets `QueueRun` |
| Runtime.DetachedHead | src/FluidFlow/Activities/WorkflowExecutor.cs:58-62 | a FireAndForget head is the only activity dispatched and leaves the queue |
| Runtime.DelayedHead | src/FluidFlow/Activities/WorkflowExecutor.cs:64-69 | a Delayed head is the only activity dispatched (the service-queue and save events dispatch nothing) and stays queued |
| Runtime.RanHead | src/FluidFlow/Activities/WorkflowExecutor.cs:50-56 | an awaited head is the only activity dispatched and leaves the queue exactly when its run succeeded |
| Runtime.DrainedAtDelayed | src/FluidFlow/Activities/WorkflowExecutor.cs:64-69 | a drain that dispatched something stops at a Delayed head: the queue is unchanged and only the head was dispatched |
| Runtime.DelayedHeadStops | src/FluidFlow/Activities/WorkflowExecutor.cs:64-69 | a workflow whose head is Delayed dispatches only that head and keeps its queue; when the run succeeds the workflow is Delayed |
| Runtime.BranchPauseDequeuesSpecification | src/FluidFlow/Activities/SpecificationActivity.cs:77-90 | a Delayed activity inside an `If` branch suspends only the branch: for the specification activity the builder queues (a SychronizedTask head of the outer workflow), with each awaited outcome passed on and the three runs nested as the engine nests them, the specification activity ends Completed with the branch's outcome; on Done the arena the outer executor leaves has the branch Delayed with its queue kept and the outer workflow Executing with the specification activity dequeued (WorkflowExecutor.cs:50-56), so its loop goes on to the next activity (WorkflowActivity.cs:239-246, Workflow.cs:141-151); on an exception the outer workflow rethrows it and keeps the head |
| Runtime.SuccessPassedOn | src/FluidFlow/Activities/SpecificationActivity.cs:79-89 | a specification activity that holds ends Completed with the outcome of its awaited success branch |
| Runtime.AwaitedHeadDequeued | src/FluidFlow/Activities/WorkflowExecutor.cs:50-56 | an awaited head's outcome is the executor's outcome, the workflow is Executing, and the head leaves the queue exactly on Done |
| Builder.IndexOf | src/FluidFlow/Activities/WorkflowActivity.cs:154 | `List.IndexOf`: -1 exactly when absent, otherwise the first position holding the element |
| Builder.AndQueueAsWritten | src/FluidFlow/Activities/WorkflowActivity.cs:154-172 | as written, the group replaces the first slot holding the last activity |
| Builder.AndQueue | src/FluidFlow/Activities/WorkflowActivity.cs:164 | the corrected queue: the group replaces the last slot and every other entry stays |
| Builder.AndQueueAgreesIffLastUnique | src/FluidFlow/Activities/WorkflowActivity.cs:150-172 | the code as written and the corrected queue agree exactly when the last activity occurs once in the queue |
| Builder.AndQueueAsWrittenReplacesFirst | src/FluidFlow/Activities/WorkflowActivity.cs:154-164 | on the queue `[a, b, a]` the code as written groups the first `a` and leaves the last slot alone |
| Builder.JoinedShape | src/FluidFlow/Activities/WorkflowActivity.cs:148-173 | `And` fails exactly on an empty queue or a Delayed last activity; otherwise the queue keeps its length and its prefix, its last entry is a ParallelActivity holding the old group (or the old last activity) with the task added, and no other workflow changes |
| Builder.IfRouting | src/FluidFlow/Activities/WorkflowActivity.cs:187-228 | after `If` the builder calls go to the success branch, after `Else` to the fail branch, and after `EndIf` to the workflow again, whose queue gained the specification activity |
| Builder.Do | src/FluidFlow/Activities/WorkflowActivity.cs:72-87 | the activity becomes SychronizedTask and is queued by the receiving workflow; the result is the workflow itself or the branch (also Workflow.cs:47-53) |
| Builder.WaitFor | src/FluidFlow/Activities/WorkflowActivity.cs:94-109 | the activity becomes Delayed and is queued by the receiving workflow, which is returned (also Workflow.cs:60-66) |
| Builder.FireAndForget | src/FluidFlow/Activities/WorkflowActivity.cs:116-131 | the activity becomes FireAndForget and is queued by the receiving workflow, which is returned (also Workflow.cs:73-79) |
| Builder.And | src/FluidFlow/Activities/WorkflowActivity.cs:138-177 | the task becomes Parallel even when `And` throws; the receiving workflow joins it to its last activity as `Joined` states (also Workflow.cs:86-117) |
| Builder.Join | src/FluidFlow/Activities/WorkflowActivity.cs:148-173 | the workflow with no open `If` does what `Joined` states, or throws InvalidOperationException and changes nothing |
| Builder.Regroup | src/FluidFlow/Activities/WorkflowActivity.cs:158-165 | a new ParallelActivity of the last activity and the task takes the last slot |
| Builder.If | src/FluidFlow/Activities/WorkflowActivity.cs:187-202 | an open `If` throws InvalidOperationException; a failed validation of the driving `LastActivity` throws as `CapturedResult` states and changes nothing; otherwise two branches and the specification activity are created and an `If` opens in Success mode, nothing queued |
| Builder.Else | src/FluidFlow/Activities/WorkflowActivity.cs:209-216 | with no open `If` it throws InvalidOperationException; otherwise the `If` switches to Fail mode |
| Builder.EndIf | src/FluidFlow/Activities/WorkflowActivity.cs:222-228 | with no open `If` it throws NullReferenceException; otherwise the specification activity is queued and the `If` closes |
| Builder.Condition | src/FluidFlow/Activities/Workflow.cs:127-133 | the specification activity built from the last activity run is queued, or the constructor's exception is thrown and nothing changes |
| Scenarios.RunTwice | src/FluidFlow/Activities/Activity.cs:54-61 | the first `Run()` of an activity succeeds and a second one throws InvalidOperationException |
| Scenarios.EmptyWorkflows | src/FluidFlow/Activities/WorkflowActivity.cs:236-237 | an empty WorkflowActivity throws InvalidOperationException when run; an empty Workflow completes |
| Scenarios.SampleChainIf | src/FluidFlow.Sample1/TestFOrm.cs:37-41 | the sample chain queues three activities and then `If` throws ArgumentNullException |
| Scenarios.BranchReturnedByWaitFor | src/FluidFlow/Activities/WorkflowActivity.cs:284-299 | with a completed driver `If` opens, `WaitFor` returns the success branch, and `Else()` on it throws InvalidOperationException |
| Scenarios.ConditionBeforeRun | src/FluidFlow/Activities/Workflow.cs:127-133 | `Condition` before any run throws ArgumentNullException and queues nothing |
| Scenarios.AndGroupsTasks | src/FluidFlow.Tests/Activities/WorkflowTests.cs:193-211 | `Do(t1).And(t2).And(t3)` leaves one queued ParallelActivity with tasks `[t1, t2, t3]` |
| Scenarios.DelayedHeadPauses | src/FluidFlow/Activities/WorkflowExecutor.cs:64-69 | a Workflow whose head was queued by `WaitFor` keeps both activities queued, and is Delayed when that head succeeds |

## Left out

- Concurrency. `Task.WhenAll` runs a ParallelActivity's tasks concurrently. The model runs them one after the other in list order, which is one possible interleaving; their outcomes are combined as `await` combines them.
- Tasks started in the background. A FireAndForget head is started with `Task.Run` and not awaited. The model records that it was started and does not run it, because its effects happen at an unknown later time.
- Runtime.Engine.Await: a caller awaiting a run relies only on the frame and the event ownership, not on `RunPost` of the callee. So the contracts of `OnRunParallel`, `OnRunSpecification` and `Execute` tie each outcome to the `Ran` event of the awaited activity, not to what that activity's class does. How the run predicates compose once each awaited outcome is passed on is stated separately, for a Delayed activity inside an `If` branch, by `Runtime.BranchPauseDequeuesSpecification`.
- Scenarios.DelayedHeadPauses: the head's outcome is fixed to Done, but for the reason above the scenario states only that a Done run leaves the workflow Delayed, not that the run is Done.
- Builder.And: the group built by `And` takes the last slot of the queue (`Builder.AndQueue`, the corrected half of the finding below), not the first slot holding the last activity as the C# code writes (`Builder.AndQueueAsWritten`). The two differ only when the last activity is queued more than once, as in `Do(a).Do(b).Do(a).And(c)`.
- Builder.Join: goes through `Joined`, which uses the corrected last-slot replacement, as stated for `Builder.And`.
- Builder.Regroup: writes the new group into the last slot (`Builder.AndQueue`), as stated for `Builder.And`.
- Builder.JoinedShape: states the shape of the corrected `Joined`, with the prefix of the queue kept; by `Builder.AndQueueAgreesIffLastUnique` this is what the C# code does exactly when the last activity is not queued earlier.
- Activity classes defined outside the core (the sample's business activities) are one `Kind` with a fixed outcome, a fixed result and an `IDelayedActivity` flag.
- The service queue, the state store and serialization are identities. `AddTask` and `Save` are events, and their implementations are not part of this model.
- The executor as a separate object. Its constructor's null checks (WorkflowExecutor.cs:29-33) cannot fail behind the workflow constructors' checks. The internal constructor taking a custom executor, used by the unit tests, is not part of this model.
- The `default` branch of `Execute`, which throws ArgumentOutOfRangeException, cannot be reached with the five declared values of `ActivityType`. Casts of other integers to the enum are not modelled.
- Null activities passed to the builder methods, and `TryGetWorkflow`'s InvalidCastException. Activities are identities and never null, and the branches are always WorkflowActivity objects.
- Builder.If: `If` calls a two-argument `SpecificationActivity<T>` constructor that SpecificationActivity.cs does not declare. The model applies the four-argument constructor's checks except the success-branch check, since the branches are created right after.
- Workflow's `LastActivity` has no public setter in Workflow.cs, although a unit test assigns one. `Condition` reads the last activity the workflow ran.
- The internal `ActivityQueue` setters, which the tests use to seed a queue. Queues change only through the builder methods and runs.
- `IsSatisfiedByAsync`, the `Branch`/`SpecificationBranch` classes, `TaskEx`, the sample application, and the older copies of the engine under src/FluidFlow/Tasks and FluidFlow/ are not part of this model.
- `Guid.NewGuid()` is taken to be unique: identities are allocation indices.

## Findings

| source | as written | input that shows it | evidently intended | confidence | as-written member | corrected member |
|---|---|---|---|---|---|---|
| src/FluidFlow/Activities/WorkflowActivity.cs:154 | `And` finds the slot to replace with `asList.IndexOf(lastTask)`, the first occurrence of the last activity | queue `[a, b, a]` then `And(c)`: the first `a` becomes the group and the last slot keeps `a` | the group replaces the last slot: `[a, b, group(a, c)]` (same in Workflow.cs:96) | not executed | Builder.AndQueueAsWrittenReplacesFirst | Builder.AndQueue |
| src/FluidFlow/Specification/AndSpecification.cs:13-17 | the composite constructors store a null operand (also OrSpecification.cs:13-17, NotSpecification.cs:11-14) | `new AndSpecification<object>(null, spec)` is built, and throws NullReferenceException only when evaluated | ArgumentNullException at construction, as AndSpecificationTests.cs:74-95 expects | not executed | Specifications.NullOperandAccepted | Specifications.NewAndSpecification |
