/**
 * The dependency resolver: assembles the resolvers, conflict handler and
 * result builders for one request, runs the graph traversal once (phase 1),
 * and later packages the artifact results (phase 2).
 */
module DependencyResolver {
  import opened Wrappers
  import opened ResolveModel
  import opened LocalConversion
  import opened Decoration
  import opened ResolveResults

  /** The services registered for the resolver, in registration order. */
  datatype ServiceRegistry = ServiceRegistry(
    converters: seq<LocalComponentConverter>,
    providers: seq<ResolverProvider>)

  /** The graph builder of one request and what it is built from. */
  datatype DependencyGraphBuilder = DependencyGraphBuilder(
    provider: DelegatingResolverProvider,
    moduleResolver: DefaultResolveContextToComponentResolver,
    conflictHandler: ConflictHandler)

  /** What phase 1 wires together, recorded for the specification. */
  datatype Wiring = Wiring(
    graphBuilder: DependencyGraphBuilder,
    newModelBuilder: ResolutionResultBuilder,
    oldTransientModelBuilder: TransientConfigurationResultsBuilder,
    oldModelBuilder: ResolvedConfigurationBuilder,
    localComponentsResultBuilder: LocalComponentsResultBuilder)

  /**
   * The registered services followed by the additional ones, adding the
   * additional ones one at a time; a null array of additional services adds
   * nothing.
   */
  method AllServices<T>(registered: seq<T>, additionals: Option<seq<T>>) returns (list: seq<T>)
    ensures additionals.None? ==> list == registered
    ensures additionals.Some? ==> |list| == |registered| + |additionals.value|
    ensures forall i :: 0 <= i < |registered| ==> i < |list| && list[i] == registered[i]
    ensures additionals.Some? ==>
      forall j :: 0 <= j < |additionals.value| ==> list[|registered| + j] == additionals.value[j]
  {
    list := registered;
    if additionals.Some? {
      var extra := additionals.value;
      for k := 0 to |extra|
        invariant list == registered + extra[..k]
      {
        list := list + [extra[k]];
      }
      assert extra[..|extra|] == extra;
    }
  }

  /** The provider the Ivy factory creates for a request. */
  function IvyProviderFor(
    resolveContext: ResolveContext,
    repositories: seq<ResolutionAwareRepository>,
    rules: GlobalDependencyResolutionRules): ResolverProvider
  {
    IvyResolverProvider(resolveContext.strategy, repositories, rules.componentMetadataProcessor)
  }

  class DefaultDependencyResolver {
    const serviceRegistry: ServiceRegistry
    const dependencyDescriptorFactory: DependencyDescriptorFactory
    const versionComparator: VersionComparator
    const buildProjectDependencies: bool

    constructor (
      serviceRegistry: ServiceRegistry,
      dependencyDescriptorFactory: DependencyDescriptorFactory,
      versionComparator: VersionComparator,
      buildProjectDependencies: bool)
      ensures this.serviceRegistry == serviceRegistry
      ensures this.dependencyDescriptorFactory == dependencyDescriptorFactory
      ensures this.versionComparator == versionComparator
      ensures this.buildProjectDependencies == buildProjectDependencies
    {
      this.serviceRegistry := serviceRegistry;
      this.dependencyDescriptorFactory := dependencyDescriptorFactory;
      this.versionComparator := versionComparator;
      this.buildProjectDependencies := buildProjectDependencies;
    }

    /** Error handling outermost, then the contextual wrapper, then `origin`. */
    method CreateArtifactResolver(origin: ArtifactResolver) returns (r: ArtifactResolver)
      ensures r == Decorate([ErrorHandling, Contextual], origin)
      ensures Decorators(r) == [ErrorHandling, Contextual] + Decorators(origin)
      ensures Origin(r) == Origin(origin)
    {
      r := ContextualArtifactResolver(origin);
      r := ErrorHandlingArtifactResolver(r);
      assert [ErrorHandling, Contextual][1..] == [Contextual];
      assert [Contextual][1..] == [];
      assert Decorate([Contextual], origin) == ContextualArtifactResolver(origin);
      DecorateLayers([ErrorHandling, Contextual], origin);
    }

    /**
     * Phase 1. Builds the provider list (registered providers, then the Ivy
     * one), the decorated delegating provider, the conflict handler and the
     * result builders, runs the traversal once, then records the results:
     * first `resolved`, then `retainState`. A failing traversal leaves
     * `results` untouched.
     */
    method Resolve(
      resolveContext: ResolveContext,
      repositories: seq<ResolutionAwareRepository>,
      metadataHandler: GlobalDependencyResolutionRules,
      results: ResolverResults,
      traverse: (DependencyGraphBuilder, ResolveContext) -> TraversalOutcome)
      returns (outcome: Outcome<ResolveException>, ghost wiring: Wiring)
      modifies results
      ensures
        var providers := serviceRegistry.providers + [IvyProviderFor(resolveContext, repositories, metadataHandler)];
        var provider := wiring.graphBuilder.provider;
        && provider.artifactResolver == Decorate([ErrorHandling, Contextual], ChainArtifactResolver(providers))
        && provider.componentIdResolver
             == DependencySubstitutionResolver(ChainComponentIdResolver(providers), resolveContext.strategy.substitutionRule)
        && provider.componentResolver == ClientModuleResolver(ChainComponentResolver(providers), dependencyDescriptorFactory)
      ensures wiring.graphBuilder.conflictHandler
        == DefaultConflictHandler(
             ConflictResolverFor(resolveContext.strategy.conflictResolution, versionComparator),
             metadataHandler.moduleReplacements)
      ensures wiring.graphBuilder.moduleResolver.localComponentFactory.factories == serviceRegistry.converters
      // two distinct binary stores, each builder paired with the cache as the resolver pairs them
      ensures wiring.newModelBuilder.store != wiring.oldTransientModelBuilder.store
      ensures wiring.newModelBuilder.cache.OldModelCache?
      ensures wiring.oldTransientModelBuilder.cache.NewModelCache?
      ensures wiring.oldModelBuilder == DefaultResolvedConfigurationBuilder(wiring.oldTransientModelBuilder)
      ensures wiring.localComponentsResultBuilder == DefaultResolvedLocalComponentsResultBuilder(buildProjectDependencies)
      ensures outcome.Fail? <==> traverse(wiring.graphBuilder, resolveContext).Aborted?
      ensures outcome.Fail? ==>
        outcome.error == traverse(wiring.graphBuilder, resolveContext).failure && unchanged(results)
      ensures outcome.Pass? ==>
        var events := traverse(wiring.graphBuilder, resolveContext).events;
        && results.calls == old(results.calls) + [ResolvedCall, RetainStateCall]
        && results.resolutionResult == Some(CompletedResolutionResult(wiring.newModelBuilder, events))
        && results.localComponentsResult == Some(CompletedLocalComponentsResult(wiring.localComponentsResultBuilder, events))
        && results.graphResults == Some(CompletedGraphResults(wiring.oldModelBuilder, events))
        && results.artifactsBuilder == Some(DefaultResolvedArtifactsBuilder(events))
        && results.transientConfigurationResultsBuilder == Some(wiring.oldTransientModelBuilder)
        && results.resolvedConfiguration == old(results.resolvedConfiguration)
    {
      var resolutionStrategy := resolveContext.strategy;

      var localComponentFactories := AllServices(serviceRegistry.converters, Some([]));
      var resolvers := AllServices(serviceRegistry.providers, Some([IvyProviderFor(resolveContext, repositories, metadataHandler)]));
      assert resolvers == serviceRegistry.providers + [IvyProviderFor(resolveContext, repositories, metadataHandler)];
      var resolverProvider := ResolverProviderChain(resolvers);
      var artifactResolver := CreateArtifactResolver(ArtifactResolverOf(resolverProvider));
      var wrappingProvider := DelegatingResolverProvider(
        artifactResolver,
        DependencySubstitutionResolver(ComponentIdResolverOf(resolverProvider), resolutionStrategy.substitutionRule),
        ClientModuleResolver(ComponentResolverOf(resolverProvider), dependencyDescriptorFactory));

      var conflictResolver: ModuleConflictResolver;
      if resolutionStrategy.conflictResolution == StrictConflictResolution {
        conflictResolver := StrictConflictResolver;
      } else {
        conflictResolver := LatestModuleConflictResolver(versionComparator);
      }
      conflictResolver := VersionSelectionReasonResolver(conflictResolver);
      var conflictHandler := DefaultConflictHandler(conflictResolver, metadataHandler.moduleReplacements);
      var chain := new ChainedLocalComponentConverter(localComponentFactories);
      var moduleResolver := new DefaultResolveContextToComponentResolver(chain);
      var builder := DependencyGraphBuilder(wrappingProvider, moduleResolver, conflictHandler);

      var stores := new StoreSet();

      var newModelStore := stores.NextBinaryStore();
      var newModelCache := OldModelCache(stores);
      var newModelBuilder := StreamingResolutionResultBuilder(newModelStore, newModelCache);

      var oldModelStore := stores.NextBinaryStore();
      var oldModelCache := NewModelCache(stores);
      var oldTransientModelBuilder := TransientConfigurationResultsBuilder(oldModelStore, oldModelCache);
      var oldModelBuilder := DefaultResolvedConfigurationBuilder(oldTransientModelBuilder);
      var localComponentsResultBuilder := DefaultResolvedLocalComponentsResultBuilder(buildProjectDependencies);

      wiring := Wiring(builder, newModelBuilder, oldTransientModelBuilder, oldModelBuilder, localComponentsResultBuilder);

      // Resolve the dependency graph
      match traverse(builder, resolveContext)
      case Aborted(failure) =>
        outcome := Fail(failure);
      case Traversed(events) =>
        var artifactsBuilder := DefaultResolvedArtifactsBuilder(events);
        results.Resolved(
          CompletedResolutionResult(newModelBuilder, events),
          CompletedLocalComponentsResult(localComponentsResultBuilder, events));
        var graphResults := CompletedGraphResults(oldModelBuilder, events);
        results.RetainState(graphResults, artifactsBuilder, oldTransientModelBuilder);
        outcome := Pass;
    }

    /**
     * Phase 2. For a `Configuration`, records the legacy resolved
     * configuration built from the retained state; for any other context,
     * visits the components with an action that does nothing, so `results`
     * stays as it was.
     */
    method ResolveArtifacts(
      resolveContext: ResolveContext,
      repositories: seq<ResolutionAwareRepository>,
      metadataHandler: GlobalDependencyResolutionRules,
      results: ResolverResults)
      requires results.artifactsBuilder.Some?
      requires !resolveContext.isConfiguration ==> results.resolutionResult.Some?
      modifies results
      ensures !resolveContext.isConfiguration ==> unchanged(results)
      ensures resolveContext.isConfiguration ==>
        var graphResults := old(results.graphResults);
        var artifactResults := ResolvedArtifactResultsOf(old(results.artifactsBuilder).value);
        var loader := TransientConfigurationResultsLoader(
          old(results.transientConfigurationResultsBuilder), graphResults, artifactResults);
        && results.resolvedConfiguration
             == Some(DefaultResolvedConfiguration(
                  DefaultLenientConfiguration(resolveContext, graphResults, artifactResults, loader)))
        && results.calls == old(results.calls) + [WithResolvedConfigurationCall]
        && results.resolutionResult == old(results.resolutionResult)
        && results.localComponentsResult == old(results.localComponentsResult)
        && results.graphResults == old(results.graphResults)
        && results.artifactsBuilder == old(results.artifactsBuilder)
        && results.transientConfigurationResultsBuilder == old(results.transientConfigurationResultsBuilder)
    {
      var graphResults := results.graphResults;
      var artifactResults := ResolvedArtifactResultsOf(results.artifactsBuilder.value);

      if resolveContext.isConfiguration {
        var transientConfigurationResultsFactory :=
          TransientConfigurationResultsLoader(results.transientConfigurationResultsBuilder, graphResults, artifactResults);
        var result := DefaultLenientConfiguration(
          resolveContext, graphResults, artifactResults, transientConfigurationResultsFactory);
        results.WithResolvedConfiguration(DefaultResolvedConfiguration(result));
      } else {
        // allComponents with an action whose body is empty: nothing is recorded
        var _ := results.resolutionResult.value;
      }
    }
  }
}
