/**
 * The collaborators a resolve request hands to the dependency resolver.
 * Their own behaviour lives outside this model; here they are values that
 * are only passed along, compared and recorded.
 */
module ResolveModel {
  import opened Wrappers

  /** The conflict-resolution setting of a resolution strategy. */
  datatype ConflictResolution = LatestConflictResolution | StrictConflictResolution

  /** The user's dependency-substitution rule, as handed out by the strategy. */
  datatype DependencySubstitutionRule = DependencySubstitutionRule(id: nat)

  /** The parts of a resolution strategy the resolver reads. */
  datatype ResolutionStrategy = ResolutionStrategy(
    conflictResolution: ConflictResolution,
    substitutionRule: DependencySubstitutionRule)

  /**
   * A resolve request: its runtime class name (what `getClass()` reports),
   * whether it is a `Configuration`, and its resolution strategy.
   */
  datatype ResolveContext = ResolveContext(
    className: string,
    isConfiguration: bool,
    strategy: ResolutionStrategy)

  datatype ResolutionAwareRepository = ResolutionAwareRepository(name: string)

  datatype ComponentMetadataProcessor = ComponentMetadataProcessor(id: nat)

  /** The module replacement rules of the module metadata processor. */
  datatype ModuleReplacements = ModuleReplacements(id: nat)

  /** Global rules: the component metadata processor and the module replacements. */
  datatype GlobalDependencyResolutionRules = GlobalDependencyResolutionRules(
    componentMetadataProcessor: ComponentMetadataProcessor,
    moduleReplacements: ModuleReplacements)

  datatype VersionComparator = VersionComparator(id: nat)

  datatype DependencyDescriptorFactory = DependencyDescriptorFactory(id: nat)

  /**
   * A resolver provider: one registered as a service, or the one the Ivy
   * factory creates for a request from its strategy, repositories and
   * component metadata processor.
   */
  datatype ResolverProvider =
    | RegisteredResolverProvider(id: nat)
    | IvyResolverProvider(
        strategy: ResolutionStrategy,
        repositories: seq<ResolutionAwareRepository>,
        processor: ComponentMetadataProcessor)

  /** The failure a graph traversal reports, for instance a strict version conflict. */
  datatype ResolveException = ResolveException(message: string)
}
