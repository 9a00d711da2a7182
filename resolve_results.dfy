/**
 * The stores and result builders a resolve request uses, and the results
 * object the two phases of resolution fill in.
 */
module ResolveResults {
  import opened Wrappers
  import opened ResolveModel

  /** The set of stores created for one resolve request. */
  class StoreSet {
    /** How many binary stores have been handed out so far. */
    var drawn: nat

    constructor ()
      ensures drawn == 0
    {
      drawn := 0;
    }

    /** Hands out the next binary store of this set; each one is new. */
    method NextBinaryStore() returns (s: BinaryStore)
      modifies this
      ensures s == BinaryStore(this, old(drawn))
      ensures drawn == old(drawn) + 1
    {
      s := BinaryStore(this, drawn);
      drawn := drawn + 1;
    }
  }

  /** The `index`-th binary store handed out by a store set. */
  datatype BinaryStore = BinaryStore(owner: StoreSet, index: nat)

  /** The two in-memory caches of a store set: `oldModelStore()` and `newModelStore()`. */
  datatype CacheStore = OldModelCache(owner: StoreSet) | NewModelCache(owner: StoreSet)

  /** What the graph traversal fed to its listeners. */
  datatype GraphEvents = GraphEvents(id: nat)

  /** What the graph builder's traversal does: it feeds the listeners or throws. */
  datatype TraversalOutcome = Traversed(events: GraphEvents) | Aborted(failure: ResolveException)

  /** The new-model (graph-shaped) result builder, streaming into a binary store. */
  datatype ResolutionResultBuilder = StreamingResolutionResultBuilder(store: BinaryStore, cache: CacheStore)

  /** The builder of transient legacy results, streaming into a binary store. */
  datatype TransientConfigurationResultsBuilder = TransientConfigurationResultsBuilder(store: BinaryStore, cache: CacheStore)

  /** The old-model (legacy) builder, over the transient results builder. */
  datatype ResolvedConfigurationBuilder = DefaultResolvedConfigurationBuilder(transient: TransientConfigurationResultsBuilder)

  datatype LocalComponentsResultBuilder = DefaultResolvedLocalComponentsResultBuilder(buildProjectDependencies: bool)

  /** The artifacts builder, after the traversal fed it. */
  datatype ResolvedArtifactsBuilder = DefaultResolvedArtifactsBuilder(events: GraphEvents)

  /** What each builder's `complete()` yields after a traversal. */
  datatype ResolutionResult = CompletedResolutionResult(builder: ResolutionResultBuilder, events: GraphEvents)
  datatype LocalComponentsResult = CompletedLocalComponentsResult(builder: LocalComponentsResultBuilder, events: GraphEvents)
  datatype ResolvedGraphResults = CompletedGraphResults(builder: ResolvedConfigurationBuilder, events: GraphEvents)

  /** What the artifacts builder's `resolve()` yields. */
  datatype ResolvedArtifactResults = ResolvedArtifactResultsOf(builder: ResolvedArtifactsBuilder)

  /** The loader that rebuilds transient legacy results on demand. */
  datatype TransientConfigurationResultsLoader = TransientConfigurationResultsLoader(
    transientBuilder: Option<TransientConfigurationResultsBuilder>,
    graphResults: Option<ResolvedGraphResults>,
    artifactResults: ResolvedArtifactResults)

  /** The lenient legacy view of a resolved configuration. */
  datatype LenientConfiguration = DefaultLenientConfiguration(
    configuration: ResolveContext,
    graphResults: Option<ResolvedGraphResults>,
    artifactResults: ResolvedArtifactResults,
    loader: TransientConfigurationResultsLoader)

  datatype ResolvedConfiguration = DefaultResolvedConfiguration(lenient: LenientConfiguration)

  /** The calls made on a results object, in order. */
  datatype ResultsCall = ResolvedCall | RetainStateCall | WithResolvedConfigurationCall

  /**
   * The results of one resolve request. Each setter records its arguments
   * and appends itself to `calls`; nothing else changes.
   */
  class ResolverResults {
    var resolutionResult: Option<ResolutionResult>
    var localComponentsResult: Option<LocalComponentsResult>
    var graphResults: Option<ResolvedGraphResults>
    var artifactsBuilder: Option<ResolvedArtifactsBuilder>
    var transientConfigurationResultsBuilder: Option<TransientConfigurationResultsBuilder>
    var resolvedConfiguration: Option<ResolvedConfiguration>
    var calls: seq<ResultsCall>

    constructor ()
      ensures resolutionResult == None && localComponentsResult == None
      ensures graphResults == None && artifactsBuilder == None
      ensures transientConfigurationResultsBuilder == None && resolvedConfiguration == None
      ensures calls == []
    {
      resolutionResult, localComponentsResult := None, None;
      graphResults, artifactsBuilder := None, None;
      transientConfigurationResultsBuilder, resolvedConfiguration := None, None;
      calls := [];
    }

    /** Phase 1: the graph-shaped result and the local components result. */
    method Resolved(resolutionResult: ResolutionResult, localComponentsResult: LocalComponentsResult)
      modifies this
      ensures this.resolutionResult == Some(resolutionResult)
      ensures this.localComponentsResult == Some(localComponentsResult)
      ensures calls == old(calls) + [ResolvedCall]
      ensures graphResults == old(graphResults) && artifactsBuilder == old(artifactsBuilder)
      ensures transientConfigurationResultsBuilder == old(transientConfigurationResultsBuilder)
      ensures resolvedConfiguration == old(resolvedConfiguration)
    {
      this.resolutionResult := Some(resolutionResult);
      this.localComponentsResult := Some(localComponentsResult);
      calls := calls + [ResolvedCall];
    }

    /** Phase 1: the state the artifact phase needs later. */
    method RetainState(
      graphResults: ResolvedGraphResults,
      artifactsBuilder: ResolvedArtifactsBuilder,
      transientBuilder: TransientConfigurationResultsBuilder)
      modifies this
      ensures this.graphResults == Some(graphResults)
      ensures this.artifactsBuilder == Some(artifactsBuilder)
      ensures transientConfigurationResultsBuilder == Some(transientBuilder)
      ensures calls == old(calls) + [RetainStateCall]
      ensures resolutionResult == old(resolutionResult) && localComponentsResult == old(localComponentsResult)
      ensures resolvedConfiguration == old(resolvedConfiguration)
    {
      this.graphResults := Some(graphResults);
      this.artifactsBuilder := Some(artifactsBuilder);
      transientConfigurationResultsBuilder := Some(transientBuilder);
      calls := calls + [RetainStateCall];
    }

    /** Phase 2: the legacy resolved configuration. */
    method WithResolvedConfiguration(configuration: ResolvedConfiguration)
      modifies this
      ensures resolvedConfiguration == Some(configuration)
      ensures calls == old(calls) + [WithResolvedConfigurationCall]
      ensures resolutionResult == old(resolutionResult) && localComponentsResult == old(localComponentsResult)
      ensures graphResults == old(graphResults) && artifactsBuilder == old(artifactsBuilder)
      ensures transientConfigurationResultsBuilder == old(transientConfigurationResultsBuilder)
    {
      resolvedConfiguration := Some(configuration);
      calls := calls + [WithResolvedConfigurationCall];
    }
  }
}
