/**
 * The resolvers the dependency resolver assembles for one request: the
 * decorated artifact resolver, the component-id and component resolvers of
 * the delegating provider, and the conflict resolver chosen from the
 * resolution strategy. Each is a tag naming the decorator and what it wraps.
 */
module Decoration {
  import opened ResolveModel

  /** The resolvers of a resolver provider chain over an ordered provider list. */
  datatype ResolverProviderChain = ResolverProviderChain(providers: seq<ResolverProvider>)

  /** An artifact resolver: the chain's own, or a decorator around another. */
  datatype ArtifactResolver =
    | ChainArtifactResolver(providers: seq<ResolverProvider>)
    | ContextualArtifactResolver(delegate: ArtifactResolver)
    | ErrorHandlingArtifactResolver(delegate: ArtifactResolver)

  /** The two artifact-resolver decorators. */
  datatype ArtifactDecorator = ErrorHandling | Contextual

  /** The decorators around an artifact resolver, outermost first. */
  function Decorators(r: ArtifactResolver): seq<ArtifactDecorator> {
    match r
    case ChainArtifactResolver(_) => []
    case ContextualArtifactResolver(d) => [Contextual] + Decorators(d)
    case ErrorHandlingArtifactResolver(d) => [ErrorHandling] + Decorators(d)
  }

  /** The undecorated resolver at the centre of an artifact resolver. */
  function Origin(r: ArtifactResolver): ArtifactResolver {
    match r
    case ChainArtifactResolver(_) => r
    case ContextualArtifactResolver(d) => Origin(d)
    case ErrorHandlingArtifactResolver(d) => Origin(d)
  }

  /** Wraps `inner` in the given decorators, the first one outermost. */
  function Decorate(ds: seq<ArtifactDecorator>, inner: ArtifactResolver): ArtifactResolver {
    if ds == [] then inner
    else
      match ds[0]
      case ErrorHandling => ErrorHandlingArtifactResolver(Decorate(ds[1..], inner))
      case Contextual => ContextualArtifactResolver(Decorate(ds[1..], inner))
  }

  /** Decorating adds exactly the given layers, in order, and keeps the origin. */
  lemma {:induction false} DecorateLayers(ds: seq<ArtifactDecorator>, inner: ArtifactResolver)
    ensures Decorators(Decorate(ds, inner)) == ds + Decorators(inner)
    ensures Origin(Decorate(ds, inner)) == Origin(inner)
  {
    if ds != [] {
      DecorateLayers(ds[1..], inner);
      assert ds == [ds[0]] + ds[1..];
    }
  }

  /** An artifact resolver is determined by its decorator layers and its origin. */
  lemma {:induction false} DecoratorsDetermineResolver(r: ArtifactResolver)
    ensures Decorate(Decorators(r), Origin(r)) == r
  {
    match r
    case ChainArtifactResolver(_) =>
    case ContextualArtifactResolver(d) =>
      DecoratorsDetermineResolver(d);
      assert ([Contextual] + Decorators(d))[1..] == Decorators(d);
    case ErrorHandlingArtifactResolver(d) =>
      DecoratorsDetermineResolver(d);
      assert ([ErrorHandling] + Decorators(d))[1..] == Decorators(d);
  }

  /** The component-id resolver: the chain's own, or substitution around it. */
  datatype ComponentIdResolver =
    | ChainComponentIdResolver(providers: seq<ResolverProvider>)
    | DependencySubstitutionResolver(delegate: ComponentIdResolver, rule: DependencySubstitutionRule)

  /** The component resolver: the chain's own, or client-module rewriting around it. */
  datatype ComponentMetaDataResolver =
    | ChainComponentResolver(providers: seq<ResolverProvider>)
    | ClientModuleResolver(delegate: ComponentMetaDataResolver, descriptorFactory: DependencyDescriptorFactory)

  function ArtifactResolverOf(chain: ResolverProviderChain): ArtifactResolver {
    ChainArtifactResolver(chain.providers)
  }

  function ComponentIdResolverOf(chain: ResolverProviderChain): ComponentIdResolver {
    ChainComponentIdResolver(chain.providers)
  }

  function ComponentResolverOf(chain: ResolverProviderChain): ComponentMetaDataResolver {
    ChainComponentResolver(chain.providers)
  }

  /** A provider made of one artifact, one component-id and one component resolver. */
  datatype DelegatingResolverProvider = DelegatingResolverProvider(
    artifactResolver: ArtifactResolver,
    componentIdResolver: ComponentIdResolver,
    componentResolver: ComponentMetaDataResolver)

  /** A module conflict resolver: one of the two strategies, or the reason recorder around one. */
  datatype ModuleConflictResolver =
    | StrictConflictResolver
    | LatestModuleConflictResolver(comparator: VersionComparator)
    | VersionSelectionReasonResolver(delegate: ModuleConflictResolver)

  /** How many reason recorders are stacked in a conflict resolver. */
  function ReasonLayers(r: ModuleConflictResolver): nat {
    match r
    case VersionSelectionReasonResolver(d) => 1 + ReasonLayers(d)
    case _ => 0
  }

  /**
   * The conflict resolver used for a conflict-resolution setting: strict
   * when the setting is strict, latest-wins with the comparator otherwise,
   * and in both cases wrapped once in the reason recorder.
   */
  function ConflictResolverFor(resolution: ConflictResolution, comparator: VersionComparator)
    : (r: ModuleConflictResolver)
    ensures r.VersionSelectionReasonResolver? && ReasonLayers(r) == 1
    ensures r.delegate == StrictConflictResolver <==> resolution == StrictConflictResolution
    ensures resolution != StrictConflictResolution ==> r.delegate == LatestModuleConflictResolver(comparator)
  {
    VersionSelectionReasonResolver(
      if resolution == StrictConflictResolution then StrictConflictResolver
      else LatestModuleConflictResolver(comparator))
  }

  /** The conflict handler built from a conflict resolver and the module replacements. */
  datatype ConflictHandler = DefaultConflictHandler(
    resolver: ModuleConflictResolver,
    replacements: ModuleReplacements)
}
