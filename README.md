# Dependency resolution orchestration and Eclipse project dependencies

A Dafny model of two pieces of a build tool's dependency management and IDE
integration.

**The dependency resolver** (`DefaultDependencyResolver`) is the entry point
of dependency resolution. For one resolve request it assembles the pieces the
graph traversal runs on, then records results in two phases:

- the list of resolver providers: every registered provider, then the one the Ivy factory creates for the request;
- the delegating resolver provider: the artifact resolver wrapped in error handling (outermost) and then the contextual wrapper, the component-id resolver wrapped in dependency substitution, and the component resolver wrapped in client-module rewriting;
- the conflict resolver: strict when the strategy's conflict resolution is strict, latest-wins with the version comparator otherwise, always wrapped once in the selection-reason recorder;
- the chain of local component converters, where the first converter that accepts a source converts it, and an `IllegalArgumentException` naming the source's class is thrown when none does;
- the result builders and the two binary stores they stream into;
- phase 1 (`resolve`): one traversal, then `resolved` and then `retainState` on the results object;
- phase 2 (`resolveArtifacts`): a legacy resolved configuration when the request is a `Configuration`, and otherwise a visit that changes nothing.

**The Eclipse project dependency** (`DefaultEclipseProjectDependency`) has
a path fixed at construction. It also holds a target project and that
project's identifier, which a null-ignoring setter updates together.

Modules:

- `Wrappers`: `Option`, `Result` and `Outcome`, which stand for null references and thrown exceptions.
- `ResolveModel`: the collaborators a request carries, as plain values.
- `LocalConversion`: the converter chain and the resolver that turns a resolve context into a component.
- `Decoration`: the resolver decorators and the choice of conflict resolver.
- `ResolveResults`: the store set, the result builders and the results object.
- `DependencyResolver`: `allServices` and the resolver class.
- `EclipseModel`: the Eclipse project dependency.

How the resolvers are decorated and the stores paired:

- Only the artifact resolver gets error handling and the contextual wrapper (subprojects/dependency-management/src/main/java/org/gradle/api/internal/artifacts/ivyservice/resolveengine/DefaultDependencyResolver.java:110-111, 174-178). Substitution wraps only the component-id resolver, and client-module rewriting only the component resolver (subprojects/dependency-management/src/main/java/org/gradle/api/internal/artifacts/ivyservice/resolveengine/DefaultDependencyResolver.java:112-113).
- The new-model result builder is paired with the store set's `oldModelStore()` cache, and the transient legacy builder with `newModelStore()`. The model keeps this as written.

## Model

| member | source | states |
|---|---|---|
| LocalConversion.FirstAccepting | subprojects/dependency-management/src/main/java/org/gradle/api/internal/artifacts/ivyservice/resolveengine/DefaultDependencyResolver.java:199-204 | the index found is the lowest one whose converter accepts the source, and there is none exactly when no converter accepts it |
| LocalConversion.FirstAcceptingAt | subprojects/dependency-management/src/main/java/org/gradle/api/internal/artifacts/ivyservice/resolveengine/DefaultDependencyResolver.java:200-202 | an accepting converter with no accepting converter before it is the one the search stops at |
| LocalConversion.Conversion | subprojects/dependency-management/src/main/java/org/gradle/api/internal/artifacts/ivyservice/resolveengine/DefaultDependencyResolver.java:199-205 | conversion succeeds exactly when some converter accepts the source, with the value of the first one that does; otherwise it fails with "Unable to find a local converter factory for type class <name>" |
| LocalConversion.ConversionIgnoresLaterConverters | subprojects/dependency-management/src/main/java/org/gradle/api/internal/artifacts/ivyservice/resolveengine/DefaultDependencyResolver.java:199-204 | converters after the first accepting one are never consulted: appending converters to a list that already accepts the source does not change the outcome |
| LocalConversion.ChainedLocalComponentConverter.constructor | subprojects/dependency-management/src/main/java/org/gradle/api/internal/artifacts/ivyservice/resolveengine/DefaultDependencyResolver.java:183-185 | the chain keeps the converter list it is given, in order |
| LocalConversion.ChainedLocalComponentConverter.CanConvert | subprojects/dependency-management/src/main/java/org/gradle/api/internal/artifacts/ivyservice/resolveengine/DefaultDependencyResolver.java:188-195 | true exactly when some converter of the chain accepts the source |
| LocalConversion.ChainedLocalComponentConverter.Convert | subprojects/dependency-management/src/main/java/org/gradle/api/internal/artifacts/ivyservice/resolveengine/DefaultDependencyResolver.java:199-206 | the loop returns the first accepting converter's conversion, or the IllegalArgumentException when none accepts, which agrees with CanConvert being false |
| LocalConversion.BuildableComponentResolveResult.Resolved | subprojects/dependency-management/src/main/java/org/gradle/api/internal/artifacts/ivyservice/resolveengine/DefaultDependencyResolver.java:219 | the result object holds the metadata it was resolved with |
| LocalConversion.DefaultResolveContextToComponentResolver.constructor | subprojects/dependency-management/src/main/java/org/gradle/api/internal/artifacts/ivyservice/resolveengine/DefaultDependencyResolver.java:212-214 | the resolver keeps the converter chain it is given |
| LocalConversion.DefaultResolveContextToComponentResolver.Resolve | subprojects/dependency-management/src/main/java/org/gradle/api/internal/artifacts/ivyservice/resolveengine/DefaultDependencyResolver.java:217-220 | the result is marked resolved with the converted metadata's resolve form; when no converter accepts the context, the exception propagates and the result is untouched |
| Decoration.DecorateLayers | subprojects/dependency-management/src/main/java/org/gradle/api/internal/artifacts/ivyservice/resolveengine/DefaultDependencyResolver.java:174-178 | wrapping a resolver in decorators adds exactly those layers, outermost first, and keeps the innermost resolver |
| Decoration.DecoratorsDetermineResolver | subprojects/dependency-management/src/main/java/org/gradle/api/internal/artifacts/ivyservice/resolveengine/DefaultDependencyResolver.java:174-178 | an artifact resolver is rebuilt exactly from its decorator layers and its innermost resolver |
| Decoration.ConflictResolverFor | subprojects/dependency-management/src/main/java/org/gradle/api/internal/artifacts/ivyservice/resolveengine/DefaultDependencyResolver.java:114-120 | the reason recorder is outermost and applied exactly once; it wraps the strict resolver exactly when the conflict resolution is strict, and otherwise latest-wins with the comparator |
| ResolveResults.StoreSet.constructor | subprojects/dependency-management/src/main/java/org/gradle/api/internal/artifacts/ivyservice/resolveengine/DefaultDependencyResolver.java:125 | a new store set has handed out no binary store |
| ResolveResults.StoreSet.NextBinaryStore | subprojects/dependency-management/src/main/java/org/gradle/api/internal/artifacts/ivyservice/resolveengine/DefaultDependencyResolver.java:127-131 | each call hands out a binary store different from all earlier ones |
| ResolveResults.ResolverResults.Resolved | subprojects/dependency-management/src/main/java/org/gradle/api/internal/artifacts/ivyservice/resolveengine/DefaultDependencyResolver.java:140 | records the graph-shaped and local-components results and the call; nothing else changes |
| ResolveResults.ResolverResults.RetainState | subprojects/dependency-management/src/main/java/org/gradle/api/internal/artifacts/ivyservice/resolveengine/DefaultDependencyResolver.java:143 | records the graph results, the artifacts builder, the transient builder and the call; nothing else changes |
| ResolveResults.ResolverResults.WithResolvedConfiguration | subprojects/dependency-management/src/main/java/org/gradle/api/internal/artifacts/ivyservice/resolveengine/DefaultDependencyResolver.java:163 | records the resolved configuration and the call; nothing else changes |
| DependencyResolver.AllServices | subprojects/dependency-management/src/main/java/org/gradle/api/internal/artifacts/ivyservice/resolveengine/DefaultDependencyResolver.java:90-96 | the registry's services in registry order, followed by the additional ones in argument order; a null array gives exactly the registry list |
| DependencyResolver.DefaultDependencyResolver.constructor | subprojects/dependency-management/src/main/java/org/gradle/api/internal/artifacts/ivyservice/resolveengine/DefaultDependencyResolver.java:76-88 | the resolver keeps its registry, descriptor factory, version comparator and project-dependency flag |
| DependencyResolver.DefaultDependencyResolver.CreateArtifactResolver | subprojects/dependency-management/src/main/java/org/gradle/api/internal/artifacts/ivyservice/resolveengine/DefaultDependencyResolver.java:174-178 | error handling outermost, then the contextual wrapper, then the original resolver |
| DependencyResolver.DefaultDependencyResolver.Resolve | subprojects/dependency-management/src/main/java/org/gradle/api/internal/artifacts/ivyservice/resolveengine/DefaultDependencyResolver.java:98-146 | the providers are the registered ones followed by the Ivy one; the artifact, component-id and component resolvers are decorated as written; the conflict handler uses the chosen conflict resolver; two distinct binary stores are used, with the caches paired as written; a failed traversal leaves the results untouched, and otherwise `resolved` is called before `retainState` with the builders' completed results |
| DependencyResolver.DefaultDependencyResolver.ResolveArtifacts | subprojects/dependency-management/src/main/java/org/gradle/api/internal/artifacts/ivyservice/resolveengine/DefaultDependencyResolver.java:148-172 | for a `Configuration`, a lenient configuration is built from the retained graph results, the resolved artifacts and a transient results loader, and recorded with one `withResolvedConfiguration` call; for any other context, the results are unchanged |
| EclipseModel.DefaultEclipseProjectDependency.constructor | subprojects/ide/src/main/groovy/org/gradle/plugins/ide/internal/tooling/eclipse/DefaultEclipseProjectDependency.java:30-35 | after construction, the target project and the target are both null, the path is the given one, and the invariant holds |
| EclipseModel.DefaultEclipseProjectDependency.SetTargetProject | subprojects/ide/src/main/groovy/org/gradle/plugins/ide/internal/tooling/eclipse/DefaultEclipseProjectDependency.java:45-50 | null changes nothing; a non-null project sets the target project and its identifier together, which establishes the invariant |
| EclipseModel.DefaultEclipseProjectDependency.GetTargetProject | subprojects/ide/src/main/groovy/org/gradle/plugins/ide/internal/tooling/eclipse/DefaultEclipseProjectDependency.java:37-39 | returns the `targetProject` field; for a valid object a non-null result is the project whose identifier `getTarget` reports |
| EclipseModel.DefaultEclipseProjectDependency.GetTarget | subprojects/ide/src/main/groovy/org/gradle/plugins/ide/internal/tooling/eclipse/DefaultEclipseProjectDependency.java:41-43 | returns the `targetIdentifier` field; for a valid object it is set exactly when a target project is set |
| EclipseModel.DefaultEclipseProjectDependency.GetPath | subprojects/ide/src/main/groovy/org/gradle/plugins/ide/internal/tooling/eclipse/DefaultEclipseProjectDependency.java:52-54 | returns the path given at construction |
| EclipseModel.DefaultEclipseProjectDependency.ToString | subprojects/ide/src/main/groovy/org/gradle/plugins/ide/internal/tooling/eclipse/DefaultEclipseProjectDependency.java:56-59 | "project dependency " followed by the path |

The path is a `const` field, so nothing can change it after construction (subprojects/ide/src/main/groovy/org/gradle/plugins/ide/internal/tooling/eclipse/DefaultEclipseProjectDependency.java:26).

## Left out

- Graph traversal, conflict detection and resolution, module replacement, version comparison and result streaming are done by collaborators that are not part of this model. `DependencyGraphBuilder.resolve` is the parameter `traverse`. It either feeds the builders some events or throws a `ResolveException`. The builders, their completed results and the resolver chain's resolvers are tags that record what they were built from.
- `ivyContextManager.withIvy` is not modelled; its body runs exactly once. The cache-locking and Ivy-context managers passed to the contextual artifact resolver and to the lenient configuration are also left out. Both are about global locking.
- `storeFactory.createStoreSet()` is modelled as a fresh store set. The real `StoreSet` implementation is not shown; the `StoreSet` class here is a stand-in whose `nextBinaryStore` hands out a new store on every call, counted by an index. Binary-store I/O is not modelled.
- `ServiceRegistry.getAll` is replaced by the registry's contents, given as an input sequence.
- `LOGGER.debug` is left out because it is logging.
- The `DefaultDependencyToConfigurationResolver` argument of the graph builder is a fixed, stateless object, so it is not recorded.
- The real `ResolverResults` implementation is not shown; the `ResolverResults` class here is a stand-in that records the calls made on it. Its setters `resolved`, `retainState` and `withResolvedConfiguration` are assumed to change only the fields they record, which is where the "nothing else changes" of their contracts comes from.
- `ResolveArtifacts` requires a retained artifacts builder, because the source dereferences it unconditionally. On the non-`Configuration` branch it also requires a resolution result. The visit over all components, with an action that does nothing, is not modelled as a loop, because the component list is not modelled.
- The converters' own `canConvert` and `convert` are functions given as input.
- `toResolveMetaData()` is a tag around the local metadata.
- The `DefaultEclipseDependency` superclass fields (`exported`, `attributes`, `accessRules`) and Java serialisation are not modelled.
- `DefaultEclipseProject` is not part of this model. Its identifier is taken to be fixed once the project is created.
