# Robotlegs context lifecycle and guard approval

A Dafny model of the core of the robotlegs-sharp framework, as its two test
fixtures `ContextTest` and `GuardsApproveTest` exercise it.

- **Lifecycle** (`Lifecycle.dfy`). The eight states of a context. The four
  transitions Initialize, Suspend, Resume and Destroy, with the states each may
  be requested from. The three notifications PRE_X, X and POST_X that each
  transition raises, and their names. Legal runs of transitions.
- **Contexts** (`Context.dfy`). The `Context` class.
  - `Install` invokes an extension at once, with the installing context.
  - `Configure` registers a config. It runs during `Initialize`, between
    INITIALIZE and POST_INITIALIZE.
  - `Detain` and `Release` raise "Detained" and "Released" with the instance.
  - Every transition raises its three notifications in order. Each notification
    calls the value pushers attached to it, in attachment order, and each pusher
    appends its value to a shared list.
  - The context's `log` is the ordered record of everything an observer can
    see: extension invocations with the context they received, config runs, and
    raised notifications.
  - `Valid()` is the invariant of a context at rest. Until the context is
    initialized, every config waits and none has run. From then on, every
    config has run exactly once, in registration order. The log agrees: the
    config runs it records are exactly the configs that have run, in that
    order, and the extension invocations it records are exactly the installed
    extensions, each once.
- **ContextTest** (`ContextTest.dfy`). The context test fixture. Each test is a
  method that builds a fresh context, drives it as the test does, and returns
  what the test observes. Each method proves the test's assertion.
- **Guards** (`Guards.dfy`). `Approve` over a sequence of guards.
  - A guard is one of three representations: a zero-argument predicate, a
    guard type (instantiated first, through an optional injector), or a guard
    instance.
  - `Approve` answers `Ok(true)` only when every guard approves. The first
    guard that does not approve decides the answer.
  - A value with no approve method gives `Err(NoApprove)`. A delegating guard
    whose dependency cannot be injected gives `Err(MissingDependency(d))`.

The implementation files of `Context` and `Guards` are not part of this model;
only their test fixtures are. Where the tests say nothing, the model follows the
framework's design as documented:

- Detain notifies on every call, but stores an instance only once.
- Releasing an instance that is not detained does nothing and raises nothing.
- Destroy releases every instance still detained, after POST_DESTROY, in
  detention order.
- A config registered after Initialize runs at once.
- Installing an extension twice, or configuring a config twice, has no
  further effect.
- A destroyed context is inert. Install, Configure, Detain and Release, like
  the transitions, are not callable on a DESTROYED context.
- Approve stops at the first guard that does not approve.

## Model

| member | source | states |
|---|---|---|
| Lifecycle.CanEnter | test/robotlegs/bender/framework/impl/ContextTest.cs:231-234 | definition: Initialize from UNINITIALIZED, Suspend from ACTIVE, Resume from SUSPENDED, Destroy from ACTIVE or SUSPENDED; nothing from DESTROYED |
| Lifecycle.Transient | test/robotlegs/bender/framework/impl/ContextTest.cs:231-234 | the in-between state of each transition (INITIALIZING, SUSPENDING, RESUMING, DESTROYING) is not a resting state |
| Lifecycle.Target | test/robotlegs/bender/framework/impl/ContextTest.cs:231-234 | every transition ends in a resting state other than UNINITIALIZED, and only Destroy ends in DESTROYED |
| Lifecycle.EventsOf | test/robotlegs/bender/framework/impl/ContextTest.cs:231-234 | definition: the notifications of a run of transitions, PRE_X, X, POST_X per transition, in order; its properties are EventsOfAt and EventsOfAppend |
| Lifecycle.Run | test/robotlegs/bender/framework/impl/ContextTest.cs:231-234 | definition: the state a run of transitions reaches, or none when one is requested from a state that does not allow it; its properties are RunRests, NoReinitialize, InitializeFirstAndOnce and DestroyIsLast |
| Lifecycle.Names | test/robotlegs/bender/framework/impl/ContextTest.cs:203-216 | the names of a sequence of notifications, one per notification, in the same order |
| Lifecycle.EventsOfAt | test/robotlegs/bender/framework/impl/ContextTest.cs:231-234 | a run of n transitions raises exactly 3n notifications, and transition k contributes PRE_X, X, POST_X at positions 3k, 3k+1, 3k+2 |
| Lifecycle.EventsOfAppend | test/robotlegs/bender/framework/impl/ContextTest.cs:231-234 | the notifications of two runs in turn are those of the first run followed by those of the second |
| Lifecycle.FullCycleEvents | test/robotlegs/bender/framework/impl/ContextTest.cs:231-234 | Initialize, Suspend, Resume, Destroy raise exactly twelve notifications, in the expected order |
| Lifecycle.FullCycleDistinct | test/robotlegs/bender/framework/impl/ContextTest.cs:231-234 | no notification fires twice in the full cycle |
| Lifecycle.FullCycleNames | test/robotlegs/bender/framework/impl/ContextTest.cs:203-216 | the names of the full cycle's notifications are exactly the twelve expected names, PRE_INITIALIZE to POST_DESTROY |
| Lifecycle.FullCycleIsLegal | test/robotlegs/bender/framework/impl/ContextTest.cs:231-234 | the full cycle is legal from a fresh context and ends in DESTROYED |
| Lifecycle.RunRests | test/robotlegs/bender/framework/impl/ContextTest.cs:231-234 | a legal run never leaves a context in a transient state |
| Lifecycle.NoReinitialize | test/robotlegs/bender/framework/impl/ContextTest.cs:231-234 | once a context has left UNINITIALIZED, no legal run contains Initialize |
| Lifecycle.InitializeFirstAndOnce | test/robotlegs/bender/framework/impl/ContextTest.cs:231-234 | a legal run from a fresh context starts with Initialize and never repeats it |
| Lifecycle.DestroyIsLast | test/robotlegs/bender/framework/impl/ContextTest.cs:234 | in a legal run Destroy can only be the last transition, and the run then ends in DESTROYED |
| Contexts.Pushes | test/robotlegs/bender/framework/impl/ContextTest.cs:218-229 | definition: the values the listeners attached to a notification push, in attachment order; its properties are SoleListenerUpTo and NamePushersPush |
| Contexts.ConfigRunsIn | test/robotlegs/bender/framework/impl/ContextTest.cs:52-63 | a config appears among the runs a log shows exactly when the log records that config running |
| Contexts.InstallsIn | test/robotlegs/bender/framework/impl/ContextTest.cs:40-50 | an extension appears among the installs a log shows exactly when the log records a context it was invoked with |
| Contexts.ProjectAppend | test/robotlegs/bender/framework/impl/ContextTest.cs:40-63 | the config runs and extension invocations two stretches of a log show are those of the first followed by those of the second |
| Contexts.RemoveKeepsOrder | test/robotlegs/bender/framework/impl/ContextTest.cs:84-96 | releasing an instance held once keeps every other instance, in the order they were detained |
| Contexts.Remove | test/robotlegs/bender/framework/impl/ContextTest.cs:91-93 | removing an instance keeps exactly the others, keeps them distinct, and shortens a list that held it by one |
| Contexts.SoleListenerUpTo | test/robotlegs/bender/framework/impl/ContextTest.cs:218-229 | when no two listeners share a notification, a notification pushes the value of its one listener, or nothing |
| Contexts.NamePushersPush | test/robotlegs/bender/framework/impl/ContextTest.cs:218-229 | with one name pusher per notification, a notification pushes its own name exactly once, and an unwatched one pushes nothing |
| Contexts.DeliveredAppend | test/robotlegs/bender/framework/impl/ContextTest.cs:251-256 | what two runs of notifications push in turn is what the first pushes followed by what the second pushes |
| Contexts.DeliveredEvents | test/robotlegs/bender/framework/impl/ContextTest.cs:231-234 | what one transition pushes is what its three notifications push, PRE_X first and POST_X last |
| Contexts.DeliveredCycle | test/robotlegs/bender/framework/impl/ContextTest.cs:231-234 | a run of transitions pushes what the run before its last transition pushes, followed by what the last transition pushes |
| Contexts.DeliveredNames | test/robotlegs/bender/framework/impl/ContextTest.cs:218-235 | when every notification pushes exactly its name, the shared list receives the names in firing order |
| Contexts.NamePushersDeliver | test/robotlegs/bender/framework/impl/ContextTest.cs:218-235 | with one name pusher per notification, any run of those notifications pushes their names in firing order |
| Contexts.DeliveredFullCycle | test/robotlegs/bender/framework/impl/ContextTest.cs:231-234 | the full cycle pushes what Initialize, Suspend, Resume and Destroy push, in that order |
| Contexts.FullCyclePushes | test/robotlegs/bender/framework/impl/ContextTest.cs:218-235 | with one name pusher per notification, the full cycle pushes exactly the twelve expected names |
| Contexts.Context.Valid | test/robotlegs/bender/framework/impl/ContextTest.cs:40-96 | definition of a context at rest: a resting state; no extension, config or instance held twice; configs waiting until Initialize and run exactly once afterwards; the log shows exactly the configs run and the extensions installed, in order |
| Contexts.Context.ConfigsLogged | test/robotlegs/bender/framework/impl/ContextTest.cs:52-63 | the log of a valid context shows no config run before Initialize, and afterwards exactly the registered configs, in registration order, each once |
| Contexts.Context.ExtensionsLogged | test/robotlegs/bender/framework/impl/ContextTest.cs:40-50 | the log of a valid context shows exactly the installed extensions invoked, in installation order, each once |
| Contexts.Context.constructor | test/robotlegs/bender/framework/impl/ContextTest.cs:23-27 | a new context is valid and UNINITIALIZED, and holds nothing |
| Contexts.Context.Install | test/robotlegs/bender/framework/impl/ContextTest.cs:40-50 | a new extension is invoked once, at once, and receives this context; a known extension is not invoked again |
| Contexts.Context.Configure | test/robotlegs/bender/framework/impl/ContextTest.cs:52-63 | before Initialize a new config waits and does not run; afterwards it runs at once; a known config is ignored |
| Contexts.Context.AddValuePusher | test/robotlegs/bender/framework/impl/ContextTest.cs:218-229 | the pusher is attached after all earlier ones |
| Contexts.Context.Detain | test/robotlegs/bender/framework/impl/ContextTest.cs:72-82 | "Detained" is raised with the instance on every call, and the instance is held once |
| Contexts.Context.Release | test/robotlegs/bender/framework/impl/ContextTest.cs:84-96 | a detained instance stops being held and "Released" is raised with it; an unknown instance changes nothing |
| Contexts.Context.Raise | test/robotlegs/bender/framework/impl/ContextTest.cs:251-256 | a notification is logged once, and its listeners push their values in attachment order |
| Contexts.Context.Begin | test/robotlegs/bender/framework/impl/ContextTest.cs:231-234 | PRE_X fires, then X, and the context is left in the transition's target state |
| Contexts.Context.RunPending | test/robotlegs/bender/framework/impl/ContextTest.cs:52-63 | every waiting config runs once, in registration order, and none waits any longer |
| Contexts.Context.ReleaseAll | test/robotlegs/bender/framework/impl/ContextTest.cs:84-96 | every detained instance is released once, in detention order, and none stays held |
| Contexts.Context.Initialize | test/robotlegs/bender/framework/impl/ContextTest.cs:52-63 | PRE_INITIALIZE, INITIALIZE, every config in registration order, then POST_INITIALIZE; afterwards every config has run exactly once |
| Contexts.Context.RunInitialize | test/robotlegs/bender/framework/impl/ContextTest.cs:52-63 | PRE_INITIALIZE and INITIALIZE fire, the waiting configs run in registration order, then POST_INITIALIZE fires, and no config waits any longer |
| Contexts.Context.Suspend | test/robotlegs/bender/framework/impl/ContextTest.cs:232 | PRE_SUSPEND, SUSPEND, POST_SUSPEND, and nothing else is logged |
| Contexts.Context.Resume | test/robotlegs/bender/framework/impl/ContextTest.cs:233 | PRE_RESUME, RESUME, POST_RESUME, and nothing else is logged |
| Contexts.Context.Destroy | test/robotlegs/bender/framework/impl/ContextTest.cs:234 | PRE_DESTROY, DESTROY, POST_DESTROY, then "Released" for every instance still detained; the context ends DESTROYED and holds no detained instance |
| ContextTest.ExtensionsAreInstalled | test/robotlegs/bender/framework/impl/ContextTest.cs:40-50 | the context the installed extension receives is the installing context |
| ContextTest.ConfigsAreInstalled | test/robotlegs/bender/framework/impl/ContextTest.cs:52-63 | the configured config has run once Initialize returns, between INITIALIZE and POST_INITIALIZE |
| ContextTest.DetainStoresTheInstance | test/robotlegs/bender/framework/impl/ContextTest.cs:72-82 | the "Detained" payload is the detained instance |
| ContextTest.ReleaseFreesUpTheInstance | test/robotlegs/bender/framework/impl/ContextTest.cs:84-96 | the "Released" payload is the released instance, and the context no longer holds it |
| ContextTest.LifecycleEventsArePropagated | test/robotlegs/bender/framework/impl/ContextTest.cs:200-236 | the shared list is exactly the twelve names PRE_INITIALIZE to POST_DESTROY in firing order, and the context raised exactly those twelve notifications |
| ContextTest.AttachNamePushers | test/robotlegs/bender/framework/impl/ContextTest.cs:218-229 | the twelve pushers the test attaches are one name pusher per notification of the full cycle |
| ContextTest.FullCycleListeners | test/robotlegs/bender/framework/impl/ContextTest.cs:218-229 | the twelve attached pushers, in order, pair each notification of the full cycle with its name |
| Guards.Instantiate | test/robotlegs/bender/framework/impl/GuardsApproveTest.cs:48-84 | definition: a guard type becomes an instance; a delegating guard gets its dependency from the injector, or fails with a missing-dependency error |
| Guards.Evaluate | test/robotlegs/bender/framework/impl/GuardsApproveTest.cs:36-70 | definition of one guard's answer: a predicate its result, a type or an instance what its approve method answers, an error for a value without approve |
| Guards.Approve | test/robotlegs/bender/framework/impl/GuardsApproveTest.cs:36-133 | definition: asks the guards in order, and the first that does not approve decides; its properties are ApproveTrueIff, FirstRefusalDecides, RefusalHasACause and the lemmas below |
| Guards.ApproveTrueIff | test/robotlegs/bender/framework/impl/GuardsApproveTest.cs:86-102 | Approve approves if and only if every guard approves |
| Guards.FirstRefusalDecides | test/robotlegs/bender/framework/impl/GuardsApproveTest.cs:86-102 | the answer of the first guard that does not approve is Approve's answer |
| Guards.RefusalHasACause | test/robotlegs/bender/framework/impl/GuardsApproveTest.cs:86-102 | any answer other than approval is some guard's answer, and every guard before it approves |
| Guards.ApproveIsAnd | test/robotlegs/bender/framework/impl/GuardsApproveTest.cs:86-102 | when no guard fails, Approve is the logical AND of the guards' answers |
| Guards.GrumpyGuardVetoes | test/robotlegs/bender/framework/impl/GuardsApproveTest.cs:86-102 | one refusing guard anywhere withholds approval |
| Guards.ApproveConcat | test/robotlegs/bender/framework/impl/GuardsApproveTest.cs:86-102 | asking two guard lists in turn is asking their concatenation |
| Guards.ApproveByAnswers | test/robotlegs/bender/framework/impl/GuardsApproveTest.cs:86-102 | guards that answer alike position by position give the same approval, whatever their representations |
| Guards.ReplaceGuard | test/robotlegs/bender/framework/impl/GuardsApproveTest.cs:36-70 | replacing one guard by another that answers alike, whatever its representation, never changes Approve's answer |
| Guards.RepresentationsInterchangeable | test/robotlegs/bender/framework/impl/GuardsApproveTest.cs:36-70 | a predicate, a guard type and a guard instance that answer the same value are interchangeable anywhere in a list, under every injector |
| Guards.InjectorIrrelevant | test/robotlegs/bender/framework/impl/GuardsApproveTest.cs:36-70 | without a guard that needs injection, the injector does not change the answer |
| Guards.ApproveOne | test/robotlegs/bender/framework/impl/GuardsApproveTest.cs:36-40 | one guard, passed alone or as a one-element array, answers for itself |
| Guards.GuardsApproveFixture | test/robotlegs/bender/framework/impl/GuardsApproveTest.cs:36-133 | each test's expected outcome: happy guards approve, grumpy guards refuse, in every representation; the middle-man guard answers what the injected boss guard answers; a grumpy guard among happy ones refuses; an object without approve is an error |

## Left out

- NUnit plumbing (`[SetUp]`, `[TearDown]`, `Assert`, `ExpectedException`): a fresh context or injector per test is the start of each test method or lemma.
- `can_instantiate` (ContextTest.cs:33-38): the interface type check has no counterpart. A new context is only stated to be valid and empty.
- The parent and child context tests (ContextTest.cs:98-197), the state-change test (ContextTest.cs:238-249) and the dynamic-object guard test (GuardsApproveTest.cs:113-125) are commented out in the source.
- `injector_is_mapped_into_itself` (ContextTest.cs:65-70) and the injection container as a whole: the container is an external library. Its only role here is the dependency-to-value map a delegating guard reads.
- Reflection, delegates and multicast events are modelled as tokens, listener records and log entries. Extensions, configs and instances are opaque tokens, compared by identity.
- Illegal transitions (for example Suspend before Initialize) are excluded by the transition methods' preconditions. No error is modelled because no test shows one.
- Calls on a destroyed context: Install, Configure, Detain and Release require a state other than DESTROYED, as the transitions do. The failure such a call raises is not modelled, because no test shows one.
- Begin, RunPending, ReleaseAll and RunInitialize are steps of the transitions rather than operations of the framework; each requires the state its transition is in at that step.
- The `NullReferenceException` of an invalid guard is the result `Err(NoApprove)`.
- Composite guards (a guard that is itself a list of guards) are not used by the tests and are not modelled.
- Guards: a predicate guard stands for its constant answer. Side effects of predicate guards, and predicates that answer differently on different calls, are not modelled.
- The shared list of the lifecycle test is the context field `pushed`, because the model has no closures to hold it.
- tests/Robotlegs/Bender/Extensions/CommandCenter/Support/PriorityMapping.cs only stores one integer. Its base class is not part of this model.
- Concurrency: a context is single-threaded. No method models interleaving.
