# Shadow dispatch and the environment cache of Robolectric, in Dafny

This project models two parts of Robolectric's shadow-dispatch core and proves
properties of them.

**The environment cache** (`EnvHolder`, module `Environments`). An
`SdkEnvironment` is expensive to build. For each `SdkConfig`, `EnvHolder`
keeps two references to it:

- a soft (reclaimable) reference in `sdkToEnvironmentSoft`;
- a strong reference in `sdkToEnvironment`.

`getSdkEnvironment` returns the environment of a live soft reference. Otherwise
it calls the caller's factory once, stores the result in both maps and returns
it. It prints a diagnostic when the soft reference had existed but had been
cleared.

How the model represents this:

- `EnvHolder` is a class with the same three map fields.
- A soft reference is an `Option<SdkEnvironment>`, `None` once cleared.
- The memory manager clearing a soft reference is the explicit method `Reclaim`.
- The diagnostic is the ghost flag `reportedReclaim`.
- The factory is a `Factory` object with a ghost list of the environments its `create()` calls returned.
- Environments are objects, so "the same instance" means reference equality.

The pure function `Get` describes one call on the pair of maps (`Store`).
`GetSdkEnvironment` is proved to perform exactly that step, with the environment returned by its single factory call as the new one. Lemmas over
arbitrary sequences of requests and reclamations state the cache's promises.

**Override resolution** (`ShadowMap` and `InvocationPlan`, modules `ShadowMaps`,
`Hierarchy`, `InvocationPlans`). A shadow map registers, for a target class, a
shadow class and a `callThroughByDefault` policy. An invocation plan receives:

- the shadow map;
- the invoked class and the shadow class bound at the call site;
- the method name, whether the call is static, and the parameter types.

It decides whether a shadow method applies, and which one. The rule the model
implements:

1. Look the method up by name and parameter types in the bound shadow class,
   then in its superclasses. The nearest declaration wins, as Java's
   `Class.getMethod` does.
2. Accept the found method only if all three hold:
   - its declaring class carries `@Implements`;
   - its static-ness matches the call;
   - that class implements the invoked class itself (the same "generation").
     The one exception is an instance call on a class whose registration has
     `callThroughByDefault` off: such a call takes a shadow method of any
     generation. A static call is always held to its own generation, as the
     name of the test `forStaticMethods_shouldOnlyInvokeShadowMethodsOnShadowClassesForTheSameGeneration`
     says.
3. With no registration for the invoked class, there is no shadow method, and
   the real method runs.

The class space is an explicit table: superclass, `@Implements` target and
declared methods per class. Module `InvocationPlanScenarios` builds the fixture
hierarchy of `InvocationPlanTest` and proves, as lemmas, every assertion of that
test about a plan.

Because `sdkToEnvironment` holds a strong reference to every environment it
caches, Java's garbage collector can never clear the soft reference of an
environment the cache still holds (`StrongMapPinsLiveEnvironments`). In Java
the rebuild-after-reclaim branch is still reached when a factory returns
`null`: the cache then stores a soft reference to `null`, so the next call for
that key reports a reclaim and calls its factory again, and so on until a
factory returns a non-null environment. The model's
factory never returns `null`, so it reaches that branch through `Reclaim`,
which stands for a memory manager that clears soft references at any time.

## Model

| member | source | states |
|---|---|---|
| Hierarchy.DeclaredMethod | src/test/java/org/robolectric/bytecode/InvocationPlanTest.java:123-140 | the method a class declares itself with the given name and parameter types, if there is one, and none exactly when no declaration matches |
| Hierarchy.DeclaredMethodIsFirst | src/test/java/org/robolectric/bytecode/InvocationPlanTest.java:123-140 | the declaration found is the first matching one of the class |
| Hierarchy.Chain | src/test/java/org/robolectric/bytecode/InvocationPlanTest.java:132-140 | the superclass chain of a class: starts at the class, each next element is the previous one's superclass, all known and pairwise distinct, and it runs until a class with no superclass, an unknown one or one already on the chain |
| Hierarchy.FindMethod | src/test/java/org/robolectric/bytecode/InvocationPlanTest.java:44-46 | the reflective lookup of a method by name and parameter types: what it finds is declared by a known class with that name and those parameter types, and a class that declares the method itself is where the lookup stops |
| Hierarchy.FindMethodNoneIffUndeclared | src/test/java/org/robolectric/bytecode/InvocationPlanTest.java:44-46 | the method lookup finds nothing exactly when no class of the superclass chain declares a matching method |
| Hierarchy.FindMethodIsNearest | src/test/java/org/robolectric/bytecode/InvocationPlanTest.java:44-46 | what the lookup finds is the declaration of the nearest class of the chain that declares a matching method |
| Hierarchy.FindMethodDeclares | src/test/java/org/robolectric/bytecode/InvocationPlanTest.java:55-60 | a found method is declared by its class, which lies on the chain, with the requested name and parameter types |
| ShadowMaps.NewEmptyBuilder | src/test/java/org/robolectric/bytecode/InvocationPlanTest.java:20 | `new ShadowMap.Builder()` builds the empty map |
| ShadowMaps.NewBuilder | src/test/java/org/robolectric/bytecode/InvocationPlanTest.java:56 | `shadowMap.newBuilder()` starts from every registration of the base map |
| ShadowMaps.AddShadowClass | src/test/java/org/robolectric/bytecode/InvocationPlanTest.java:20-23 | after `addShadowClass` the target maps to the new shadow and policy, every other target keeps its registration, and the key set grows by the target only |
| ShadowMaps.Build | src/test/java/org/robolectric/bytecode/InvocationPlanTest.java:20-23 | `build()`, a definition: what it yields is given by `NewEmptyBuilder`, `NewBuilder`, `AddShadowClass` and `LaterRegistrationWins` |
| ShadowMaps.ConfigFor | src/test/java/org/robolectric/bytecode/InvocationPlanTest.java:29 | the registration a plan consults (`NewInvocationPlan` matches on it), a definition: its value on every built map is given by `NewEmptyBuilder`, `NewBuilder`, `AddShadowClass`, `LaterRegistrationWins` and `EmptyRegistersNothing` |
| ShadowMaps.EmptyRegistersNothing | src/test/java/org/robolectric/bytecode/InvocationPlanTest.java:81 | `ShadowMap.EMPTY` has no registration for any class |
| ShadowMaps.LaterRegistrationWins | src/test/java/org/robolectric/bytecode/InvocationPlanTest.java:55-57 | a second registration for the same target replaces the first |
| ShadowMaps.DistinctRegistrationsCommute | src/test/java/org/robolectric/bytecode/InvocationPlanTest.java:20-23 | registrations for different targets give the same map in either order |
| InvocationPlans.NewInvocationPlan | src/test/java/org/robolectric/bytecode/InvocationPlanTest.java:26-83 | no registration: no shadow method, and the real method runs; otherwise call-through follows the registration; a resolved method is declared on the bound shadow chain by a shadow class, has the call's name, parameter types and static-ness, and belongs to the invoked class's generation whenever call-through is on or the call is static |
| InvocationPlans.HasShadowImplementation | src/test/java/org/robolectric/bytecode/InvocationPlanTest.java:30 | `hasShadowImplementation()`, a definition: when it holds of a plan is given by `ResolutionIsNearestAcceptable` |
| InvocationPlans.ShouldDelegateToRealMethodWhenMethodShadowIsMissing | src/test/java/org/robolectric/bytecode/InvocationPlanTest.java:83 | `shouldDelegateToRealMethodWhenMethodShadowIsMissing()`, a definition: its value for a plan is given by the first two ensures of `NewInvocationPlan` |
| InvocationPlans.Acceptable | src/test/java/org/robolectric/bytecode/InvocationPlanTest.java:26-61 | which found method may stand in, a definition: what it admits is given by `SameGenerationShadowUsed`, `StaticMismatchNeverUsed`, `NonShadowDeclarationNeverUsed`, `OtherGenerationNotBorrowedWithCallThrough`, `StaticNeverBorrowsOtherGeneration` and `CallThroughOffUsesAnyShadowGeneration` |
| InvocationPlans.ResolutionIsNearestAcceptable | src/test/java/org/robolectric/bytecode/InvocationPlanTest.java:26-61 | a plan has a shadow implementation exactly when the invoked class is registered and the nearest declaration on the shadow chain is acceptable; the plan's method is then that declaration |
| InvocationPlans.NearestIsUnique | src/test/java/org/robolectric/bytecode/InvocationPlanTest.java:44-46 | the nearest declaring position of a chain is unique |
| InvocationPlans.NonShadowDeclarationNeverUsed | src/test/java/org/robolectric/bytecode/InvocationPlanTest.java:63-74 | a method whose nearest declaration is on a class without `@Implements` (Object's equals, hashCode, toString) is never a shadow implementation, whatever the policy |
| InvocationPlans.SameGenerationShadowUsed | src/test/java/org/robolectric/bytecode/InvocationPlanTest.java:32-35 | under either policy, a nearest declaration on a shadow class implementing the invoked class, with the call's static-ness, is the plan's method |
| InvocationPlans.StaticMismatchNeverUsed | src/test/java/org/robolectric/bytecode/InvocationPlanTest.java:49-53 | a nearest declaration whose static-ness differs from the call's is never used, under either policy |
| InvocationPlans.OtherGenerationNotBorrowedWithCallThrough | src/test/java/org/robolectric/bytecode/InvocationPlanTest.java:27-30 | with call-through on, a declaration from a shadow of another target is not used, and the real method runs |
| InvocationPlans.StaticNeverBorrowsOtherGeneration | src/test/java/org/robolectric/bytecode/InvocationPlanTest.java:49-61 | a static call whose nearest declaration is on a shadow of another class has no shadow implementation, whatever the call-through policy |
| InvocationPlans.CallThroughOffUsesAnyShadowGeneration | src/test/java/org/robolectric/bytecode/InvocationPlanTest.java:38-46 | with call-through off, the nearest declaration on any shadow class with matching static-ness is used; for a static call, that class must be of the invoked class's generation |
| InvocationPlanScenarios.FixtureDeclarations | src/test/java/org/robolectric/bytecode/InvocationPlanTest.java:123-140 | which of the fixture's shadow classes and Object declare show, getSystem, equals, hashCode and toString |
| InvocationPlanScenarios.FixtureLookups | src/test/java/org/robolectric/bytecode/InvocationPlanTest.java:123-140 | the lookups the test's plans make: show and getSystem resolve to ShadowView from ShadowView, ShadowSubView and MyShadowView; equals, hashCode and toString resolve to Object |
| InvocationPlanScenarios.SubViewShowHasNoShadowInOtherGeneration | src/test/java/org/robolectric/bytecode/InvocationPlanTest.java:27-30 | show on SubView bound to ShadowSubView, call-through on: no shadow implementation |
| InvocationPlanScenarios.ViewShowResolvesToShadowView | src/test/java/org/robolectric/bytecode/InvocationPlanTest.java:32-35 | show on View bound to ShadowView resolves to ShadowView.show |
| InvocationPlanScenarios.CallThroughOffUsesSuperclassShadow | src/test/java/org/robolectric/bytecode/InvocationPlanTest.java:39-46 | with call-through off, show on SubView bound to ShadowSubView resolves to ShadowView.show |
| InvocationPlanScenarios.StaticGetSystemResolvesToShadowView | src/test/java/org/robolectric/bytecode/InvocationPlanTest.java:50-53 | static getSystem on View bound to ShadowView resolves to ShadowView.getSystem |
| InvocationPlanScenarios.DerivedMapStaticGetSystemResolvesToShadowView | src/test/java/org/robolectric/bytecode/InvocationPlanTest.java:55-60 | in the map derived with MyShadowView for View, static getSystem resolves to ShadowView.getSystem, and the base map still registers ShadowView |
| InvocationPlanScenarios.ObjectMethodsAreNeverShadowMethods | src/test/java/org/robolectric/bytecode/InvocationPlanTest.java:63-74 | equals, hashCode and toString on View have no shadow implementation even with call-through off |
| InvocationPlanScenarios.EmptyMapDelegatesToRealMethod | src/test/java/org/robolectric/bytecode/InvocationPlanTest.java:81-83 | with `ShadowMap.EMPTY`, setText has no shadow implementation and the real method runs |
| Environments.Get | src/main/java/org/robolectric/EnvHolder.java:13-28 | the factory runs exactly when there is no live soft reference; a hit returns the cached environment and changes nothing; afterwards the key has a live soft reference to the returned environment, and a strong one too in a consistent cache; other keys are unchanged; the diagnostic fires exactly when a soft reference existed but was cleared; consistency is preserved |
| Environments.Reclaimed | src/main/java/org/robolectric/EnvHolder.java:10-15 | clearing leaves no live soft reference for the key, keeps the key present, touches neither the strong map nor other keys, and keeps the cache consistent |
| Environments.StrongMapPinsLiveEnvironments | src/main/java/org/robolectric/EnvHolder.java:23-24 | every live environment of a consistent cache is strongly held by `sdkToEnvironment` |
| Environments.SecondGetReusesFirst | src/main/java/org/robolectric/EnvHolder.java:14-27 | two calls with the same key in a row return the identical environment; the second builds nothing, reports nothing and changes nothing |
| Environments.GetAfterReclaimRebuilds | src/main/java/org/robolectric/EnvHolder.java:17-22 | after a reclaim, the next call runs the factory, returns its result and reports the reclaim |
| Environments.RunKeepsConsistent | src/main/java/org/robolectric/EnvHolder.java:23-24 | every sequence of requests and reclamations keeps each soft key strongly held, with the same environment while the reference is live |
| Environments.CreationsBoundedByCollections | src/main/java/org/robolectric/EnvHolder.java:13-28 | along any sequence of events, the factory runs for a key at most once per clearing of its soft reference, plus once if it was not live at the start |
| Environments.LiveEntryStaysWithoutCollection | src/main/java/org/robolectric/EnvHolder.java:14-17 | while a key's soft reference is not cleared, it keeps its environment and requests for the key never run the factory |
| Environments.Factory.Create | src/main/java/org/robolectric/EnvHolder.java:22 | one `factory.create()` call: a new environment, appended to the list of what the factory has made |
| Environments.EnvHolder.constructor | src/main/java/org/robolectric/EnvHolder.java:9-11 | all three maps start empty and the cache is consistent |
| Environments.EnvHolder.GetSdkEnvironment | src/main/java/org/robolectric/EnvHolder.java:13-28 | the new maps, the returned environment and the diagnostic are those of one `Get` step on the old maps; on a miss the factory is called once and its result is the one returned and stored, on a hit it is not called; `appManifestsByFile` is outside the frame; consistency is preserved |
| Environments.EnvHolder.Reclaim | src/main/java/org/robolectric/EnvHolder.java:10 | the maps become `Reclaimed` of the old maps, and consistency is preserved |
| Environments.RequestTwice | src/main/java/org/robolectric/EnvHolder.java:14-27 | two requests with no reclaim in between return the same instance: the cached one, with no factory call, or the one made by the factory's only call |

## Left out

- `InvocationPlan.java` and `ShadowMap.java`: their source is not part of this model. Modules `ShadowMaps` and `InvocationPlans` model them, with the rule reconstructed from `InvocationPlanTest`; it agrees with every assertion of that test about a plan.
- Static-ness: the test never distinguishes whether the static check happens during the lookup or after it. The model checks it after the lookup.
- Registration lookup: the model looks up the registration of the invoked class only. Robolectric may also look up the registration of a superclass; the test does not exercise that.
- The builder follows last-write-wins. The comment at InvocationPlanTest.java:55 says the custom shadow registered over View's is the one used. Rejecting a second registration for the same class is not modelled.
- Method lookup follows only the superclass chain, and every method counts as public. Interfaces and access modifiers are not modelled.
- Parameter types are opaque class-name strings. Class loading is not modelled, and neither is the error for a malformed type name.
- Bytecode instrumentation is not modelled, because it rewrites classes at load time: `AsmInstrumentingClassLoader`, `injectClassHandler`, `callOriginal` and the reflective field check of `shouldDelegateToRealMethodsWhenClassIsUnknown` (InvocationPlanTest.java:77-80, 84-86).
- Concurrency: `synchronized` on `getSdkEnvironment` is modelled as one atomic step per call. Threads are not modelled.
- Garbage collection: `Reclaim` may clear any soft reference at any time. Real `SoftReference` reachability rules are not modelled.
- `System.out.println` of the diagnostic becomes the ghost flag `reportedReclaim`.
- Environments.Factory.Create: always succeeds with a fresh environment. A factory that returns `null` is not modelled; in Java the next call for that key reports a reclaim and calls its factory again, and so on until a factory returns a non-null environment. A factory that throws, which would leave the maps unchanged, or that returns an object it returned before, is not modelled either. What real factories build is not part of this model.
- `appManifestsByFile` is modelled only as a field that `getSdkEnvironment` does not touch. Its contents belong to code outside this model.
- `CustomRobolectricTestRunnerTest.java` is not modelled: it is test-runner lifecycle glue with no algorithm of its own.
- `ShadowAbstractWindowedCursor.java` is not modelled: it is one concrete shadow that depends on an unseen superclass, Java number parsing, floating point and JDBC `Clob`.
