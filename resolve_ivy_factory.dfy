/** Chain assembly. For every configured repository, `Create` builds the connector,
    hands Ivy-aware connectors their Ivy context, wires external-resource resolvers to
    the lock-acquiring parent-lookup facade, wraps the connector in its decorator
    layers and appends the result to the user resolver chain. The decorator stack is a
    value: the configured connector and its layers, innermost first. */
module ResolveIvyFactory {
  import opened Types
  import opened Locking
  import opened Collaborators

  /** How the persistent cache keys version listings. */
  datatype ModuleIdExtractor = DefaultModuleIdExtractor | LegacyIvyResolverModuleIdExtractor
  {
    function Transform(original: ModuleVersionSelector): (id: ModuleIdentifier)
      ensures id.group == original.group
      // the default key ignores the version
      ensures this.DefaultModuleIdExtractor? ==> id.name == original.name
      // the legacy key starts with the name, then a colon, then the whole version
      ensures this.LegacyIvyResolverModuleIdExtractor? ==>
                && |id.name| == |original.name| + 1 + |original.version|
                && id.name[..|original.name|] == original.name
                && id.name[|original.name|] == ':'
                && id.name[|original.name| + 1..] == original.version
    {
      match this
      case DefaultModuleIdExtractor =>
        ModuleIdentifier(original.group, original.name)
      case LegacyIvyResolverModuleIdExtractor =>
        ModuleIdentifier(original.group, original.name + ":" + original.version)
    }
  }

  /** A repository as declared in the build, with the facts about the connector it
      creates that decide how the connector is wrapped. */
  datatype ResolutionAwareRepository = ResolutionAwareRepository(
    id: RepositoryId,
    isLocal: bool,
    isDynamicResolveMode: bool,
    ivyAware: bool,                 // the connector is an IvyAwareModuleVersionRepository
    externalResourceResolver: bool) // the connector is an ExternalResourceResolver

  /** The connector, with what its setters have been given: whether it received the
      Ivy settings and resolve data, and which chain it resolves parents through. */
  datatype ConfiguredRepository = ConfiguredRepository(
    id: RepositoryId,
    isLocal: bool,
    isDynamicResolveMode: bool,
    ivyAware: bool,
    externalResourceResolver: bool,
    contextualized: bool,
    repositoryChain: Option<ParentModuleLookupResolver>)

  function CreateResolver(repository: ResolutionAwareRepository): ConfiguredRepository {
    ConfiguredRepository(repository.id, repository.isLocal, repository.isDynamicResolveMode,
                         repository.ivyAware, repository.externalResourceResolver, false, None)
  }

  /** The legacy extractor for Ivy-aware connectors, the default one for all others. */
  function GetModuleExtractor(rootRepository: ConfiguredRepository): (extractor: ModuleIdExtractor)
    ensures extractor.LegacyIvyResolverModuleIdExtractor? <==> rootRepository.ivyAware
    ensures extractor.DefaultModuleIdExtractor? <==> !rootRepository.ivyAware
  {
    if rootRepository.ivyAware then LegacyIvyResolverModuleIdExtractor else DefaultModuleIdExtractor
  }

  /** Ivy-aware repositories cache listings per requested version; all others share
      one cache key across every version of a module. */
  lemma ModuleIdsAcrossVersions(rootRepository: ConfiguredRepository, a: ModuleVersionSelector, b: ModuleVersionSelector)
    requires a.group == b.group && a.name == b.name
    ensures GetModuleExtractor(rootRepository).Transform(a) == GetModuleExtractor(rootRepository).Transform(b)
        <==> !rootRepository.ivyAware || a.version == b.version
  {
    if rootRepository.ivyAware && a.version != b.version {
      var prefix := a.name + ":";
      assert (prefix + a.version)[|prefix|..] == a.version;
      assert (prefix + b.version)[|prefix|..] == b.version;
    }
  }

  /** The legacy key is not injective: a colon in a module name lets two different
      selectors share one key. */
  lemma LegacyModuleIdsCanCollide()
    ensures var a := ModuleVersionSelector("org", "a:b", "1");
            var b := ModuleVersionSelector("org", "a", "b:1");
            a != b && LegacyIvyResolverModuleIdExtractor.Transform(a) == LegacyIvyResolverModuleIdExtractor.Transform(b)
  {
    assert "a:b" + ":" + "1" == "a" + ":" + "b:1";
  }

  /** The decorators one stack may hold. */
  datatype Layer =
    | LocalLayer                      // LocalModuleComponentRepository
    | LockReleasingLayer              // CacheLockReleasingModuleComponentsRepository
    | OverrideLayer                   // StartParameterResolutionOverride
    | CachingLayer(extractor: ModuleIdExtractor) // CachingModuleComponentRepository
    | DynamicResolveLayer             // IvyDynamicResolveModuleComponentRepositoryAccess
    | InMemoryCacheLayer              // InMemoryCachedRepositoryFactory.cached

  /** A connector and the layers around it, innermost first. */
  datatype DecoratedRepository = DecoratedRepository(base: ConfiguredRepository, layers: seq<Layer>)

  function Wrap(repository: DecoratedRepository, layer: Layer): DecoratedRepository {
    repository.(layers := repository.layers + [layer])
  }

  /** The layers put around a connector, innermost first. */
  function Layers(base: ConfiguredRepository): seq<Layer>
  {
    (if base.isLocal then [LocalLayer]
     else [LockReleasingLayer, OverrideLayer, CachingLayer(GetModuleExtractor(base))])
    + (if base.isDynamicResolveMode then [DynamicResolveLayer] else [])
    + [InMemoryCacheLayer]
  }

  /** The order of the decorator layers. */
  lemma LayersOrder(base: ConfiguredRepository)
    ensures |Layers(base)| == (if base.isLocal then 1 else 3) + (if base.isDynamicResolveMode then 1 else 0) + 1
    // a local repository gets only the local layer: no lock release, no override, no persistent cache
    ensures base.isLocal ==> Layers(base)[0] == LocalLayer
    ensures base.isLocal ==> forall k :: 0 <= k < |Layers(base)| ==>
              Layers(base)[k] != LockReleasingLayer && Layers(base)[k] != OverrideLayer && !Layers(base)[k].CachingLayer?
    // a remote repository: lock release, then override, then the persistent cache
    ensures !base.isLocal ==> Layers(base)[..3] == [LockReleasingLayer, OverrideLayer, CachingLayer(GetModuleExtractor(base))]
    ensures !base.isLocal ==> LocalLayer !in Layers(base)
    // dynamic-resolve wrapping iff dynamic-resolve mode, right after the local/remote branch
    ensures DynamicResolveLayer in Layers(base) <==> base.isDynamicResolveMode
    ensures base.isDynamicResolveMode ==> Layers(base)[|Layers(base)| - 2] == DynamicResolveLayer
    // the in-memory cache is the outermost layer, and occurs once
    ensures Layers(base)[|Layers(base)| - 1] == InMemoryCacheLayer && InMemoryCacheLayer !in Layers(base)[..|Layers(base)| - 1]
  {
  }

  /** The connector for a declared repository, after its setters have run. */
  function Prepare(repository: ResolutionAwareRepository, parentLookup: ParentModuleLookupResolver): ConfiguredRepository {
    var base := CreateResolver(repository);
    var base := if base.ivyAware then base.(contextualized := true) else base;
    if base.externalResourceResolver then base.(repositoryChain := Some(parentLookup)) else base
  }

  /** The stack `Create` builds for one declared repository. */
  function Stack(repository: ResolutionAwareRepository, parentLookup: ParentModuleLookupResolver): DecoratedRepository {
    DecoratedRepository(Prepare(repository, parentLookup), Layers(Prepare(repository, parentLookup)))
  }

  /** The chain `Create` builds for some declared repositories, one stack per
      repository, in declaration order. */
  function Assemble(repositories: seq<ResolutionAwareRepository>, parentLookup: ParentModuleLookupResolver): seq<DecoratedRepository>
    decreases |repositories|
  {
    if repositories == [] then []
    else Assemble(repositories[..|repositories| - 1], parentLookup) + [Stack(repositories[|repositories| - 1], parentLookup)]
  }

  /** Every declared repository is appended exactly once, at its own position, with
      its flags, its setters' effects and its layers. */
  lemma {:induction false} AssembleAt(repositories: seq<ResolutionAwareRepository>, parentLookup: ParentModuleLookupResolver)
    ensures |Assemble(repositories, parentLookup)| == |repositories|
    ensures forall k :: 0 <= k < |repositories| ==> Assemble(repositories, parentLookup)[k] == Stack(repositories[k], parentLookup)
    decreases |repositories|
  {
    if repositories != [] {
      var init := repositories[..|repositories| - 1];
      AssembleAt(init, parentLookup);
      var prefix := Assemble(init, parentLookup);
      var last := Stack(repositories[|repositories| - 1], parentLookup);
      assert Assemble(repositories, parentLookup) == prefix + [last];
      forall k | 0 <= k < |repositories|
        ensures Assemble(repositories, parentLookup)[k] == Stack(repositories[k], parentLookup)
      {
        if k < |init| {
          assert (prefix + [last])[k] == prefix[k];
          assert init[k] == repositories[k];
        }
      }
    }
  }

  /** What `Prepare` does to the connector: Ivy-aware ones are contextualized, and
      external-resource resolvers resolve parents through the facade. */
  lemma PrepareWiring(repository: ResolutionAwareRepository, parentLookup: ParentModuleLookupResolver)
    ensures Prepare(repository, parentLookup).id == repository.id
    ensures Prepare(repository, parentLookup).isLocal == repository.isLocal
    ensures Prepare(repository, parentLookup).isDynamicResolveMode == repository.isDynamicResolveMode
    ensures Prepare(repository, parentLookup).ivyAware == repository.ivyAware
    ensures Prepare(repository, parentLookup).externalResourceResolver == repository.externalResourceResolver
    ensures Prepare(repository, parentLookup).contextualized <==> repository.ivyAware
    ensures Prepare(repository, parentLookup).repositoryChain.Some? <==> repository.externalResourceResolver
    ensures Prepare(repository, parentLookup).repositoryChain.Some? ==> Prepare(repository, parentLookup).repositoryChain.value == parentLookup
  {
  }

  /** The persistent cache of a declared remote repository's stack keys listings with
      the legacy extractor exactly when the declared repository is Ivy-aware. */
  lemma CacheKeyOfDeclaredRepository(repository: ResolutionAwareRepository, parentLookup: ParentModuleLookupResolver)
    requires !repository.isLocal
    ensures Stack(repository, parentLookup).layers[2]
         == CachingLayer(if repository.ivyAware then LegacyIvyResolverModuleIdExtractor else DefaultModuleIdExtractor)
  {
    var base := Prepare(repository, parentLookup);
    PrepareWiring(repository, parentLookup);
    LayersOrder(base);
    assert Layers(base)[..3][2] == Layers(base)[2];
  }

  /** The user resolver chain, as far as assembly sees it: the stacks added to it
      and the two resolvers it gives out. */
  class UserResolverChain {
    var repositories: seq<DecoratedRepository>
    const dependencyResolver: RepositoryAccess
    const artifactResolver: RepositoryAccess

    constructor (resolution: Request -> Reply)
      ensures repositories == []
      ensures dependencyResolver.endpoint == Endpoint("chain", DependencyResolverEntry) && dependencyResolver.behaviour == resolution
      ensures artifactResolver.endpoint == Endpoint("chain", ArtifactResolverEntry) && artifactResolver.behaviour == resolution
    {
      repositories := [];
      dependencyResolver := new RepositoryAccess(Endpoint("chain", DependencyResolverEntry), resolution);
      artifactResolver := new RepositoryAccess(Endpoint("chain", ArtifactResolverEntry), resolution);
    }

    method Add(repository: DecoratedRepository)
      modifies this
      ensures repositories == old(repositories) + [repository]
    {
      repositories := repositories + [repository];
    }
  }

  /** The facade through which a connector looks up parent modules while parsing a
      descriptor: every operation calls the chain's resolver inside `useCache`. */
  class ParentModuleLookupResolver {
    const dependencyResolver: RepositoryAccess
    const artifactResolver: RepositoryAccess
    const cacheLockingManager: CacheLockingManager

    constructor (repositoryChain: UserResolverChain, cacheLockingManager: CacheLockingManager)
      ensures dependencyResolver == repositoryChain.dependencyResolver
      ensures artifactResolver == repositoryChain.artifactResolver
      ensures this.cacheLockingManager == cacheLockingManager
    {
      dependencyResolver := repositoryChain.dependencyResolver;
      artifactResolver := repositoryChain.artifactResolver;
      this.cacheLockingManager := cacheLockingManager;
    }

    method GetArtifactResolver() returns (resolver: ParentModuleLookupResolver)
      ensures resolver == this
    {
      resolver := this;
    }

    method GetDependencyResolver() returns (resolver: ParentModuleLookupResolver)
      ensures resolver == this
    {
      resolver := this;
    }

    /** Runs `request` on `target` under the lock; the shared body of the four
        operations below. */
    method Locked(target: RepositoryAccess, request: Request, result: ResolveResult) returns (outcome: Outcome)
      modifies cacheLockingManager, result
      ensures cacheLockingManager.State() == Run(old(cacheLockingManager.State()), UseCacheOp(CallOp(target.endpoint, request)))
      ensures cacheLockingManager.held == old(cacheLockingManager.held)
      ensures old(cacheLockingManager.events) <= cacheLockingManager.events
      ensures Invocations(cacheLockingManager.events[|old(cacheLockingManager.events)|..]) == [Invoked(target.endpoint, request, true)]
      ensures result.value == Apply(old(result.value), target.behaviour(request))
      ensures outcome == OutcomeOf(target.behaviour(request))
    {
      ghost var before := cacheLockingManager.State();
      outcome := UseCache(cacheLockingManager, target, request, result);
      UseCacheCallIsLocked(before, target.endpoint, request);
    }

    method Resolve(dependency: DependencyMetaData, result: ResolveResult) returns (outcome: Outcome)
      modifies cacheLockingManager, result
      ensures cacheLockingManager.State() == Run(old(cacheLockingManager.State()), UseCacheOp(CallOp(dependencyResolver.endpoint, Request.ResolveDependency(dependency))))
      ensures cacheLockingManager.held == old(cacheLockingManager.held)
      ensures old(cacheLockingManager.events) <= cacheLockingManager.events
      ensures Invocations(cacheLockingManager.events[|old(cacheLockingManager.events)|..])
           == [Invoked(dependencyResolver.endpoint, Request.ResolveDependency(dependency), true)]
      ensures result.value == Apply(old(result.value), dependencyResolver.behaviour(Request.ResolveDependency(dependency)))
      ensures outcome == OutcomeOf(dependencyResolver.behaviour(Request.ResolveDependency(dependency)))
    {
      outcome := Locked(dependencyResolver, Request.ResolveDependency(dependency), result);
    }

    method ResolveModuleArtifactsByType(component: ComponentMetaData, artifactType: ArtifactType, result: ResolveResult)
      returns (outcome: Outcome)
      modifies cacheLockingManager, result
      ensures cacheLockingManager.State() == Run(old(cacheLockingManager.State()), UseCacheOp(CallOp(artifactResolver.endpoint, Request.ResolveModuleArtifactsByType(component, artifactType))))
      ensures cacheLockingManager.held == old(cacheLockingManager.held)
      ensures old(cacheLockingManager.events) <= cacheLockingManager.events
      ensures Invocations(cacheLockingManager.events[|old(cacheLockingManager.events)|..])
           == [Invoked(artifactResolver.endpoint, Request.ResolveModuleArtifactsByType(component, artifactType), true)]
      ensures result.value == Apply(old(result.value), artifactResolver.behaviour(Request.ResolveModuleArtifactsByType(component, artifactType)))
      ensures outcome == OutcomeOf(artifactResolver.behaviour(Request.ResolveModuleArtifactsByType(component, artifactType)))
    {
      outcome := Locked(artifactResolver, Request.ResolveModuleArtifactsByType(component, artifactType), result);
    }

    method ResolveModuleArtifactsByUsage(component: ComponentMetaData, usage: ComponentUsage, result: ResolveResult)
      returns (outcome: Outcome)
      modifies cacheLockingManager, result
      ensures cacheLockingManager.State() == Run(old(cacheLockingManager.State()), UseCacheOp(CallOp(artifactResolver.endpoint, Request.ResolveModuleArtifactsByUsage(component, usage))))
      ensures cacheLockingManager.held == old(cacheLockingManager.held)
      ensures old(cacheLockingManager.events) <= cacheLockingManager.events
      ensures Invocations(cacheLockingManager.events[|old(cacheLockingManager.events)|..])
           == [Invoked(artifactResolver.endpoint, Request.ResolveModuleArtifactsByUsage(component, usage), true)]
      ensures result.value == Apply(old(result.value), artifactResolver.behaviour(Request.ResolveModuleArtifactsByUsage(component, usage)))
      ensures outcome == OutcomeOf(artifactResolver.behaviour(Request.ResolveModuleArtifactsByUsage(component, usage)))
    {
      outcome := Locked(artifactResolver, Request.ResolveModuleArtifactsByUsage(component, usage), result);
    }

    method ResolveArtifact(artifact: ComponentArtifactMetaData, moduleSource: ModuleSource, result: ResolveResult)
      returns (outcome: Outcome)
      modifies cacheLockingManager, result
      ensures cacheLockingManager.State() == Run(old(cacheLockingManager.State()), UseCacheOp(CallOp(artifactResolver.endpoint, Request.ResolveArtifact(artifact, moduleSource))))
      ensures cacheLockingManager.held == old(cacheLockingManager.held)
      ensures old(cacheLockingManager.events) <= cacheLockingManager.events
      ensures Invocations(cacheLockingManager.events[|old(cacheLockingManager.events)|..])
           == [Invoked(artifactResolver.endpoint, Request.ResolveArtifact(artifact, moduleSource), true)]
      ensures result.value == Apply(old(result.value), artifactResolver.behaviour(Request.ResolveArtifact(artifact, moduleSource)))
      ensures outcome == OutcomeOf(artifactResolver.behaviour(Request.ResolveArtifact(artifact, moduleSource)))
    {
      outcome := Locked(artifactResolver, Request.ResolveArtifact(artifact, moduleSource), result);
    }
  }

  /** The wrapping steps of `Create` for one connector. */
  method WrapLayers(baseRepository: ConfiguredRepository) returns (moduleComponentRepository: DecoratedRepository)
    ensures moduleComponentRepository == DecoratedRepository(baseRepository, Layers(baseRepository))
  {
    moduleComponentRepository := DecoratedRepository(baseRepository, []);
    if baseRepository.isLocal {
      moduleComponentRepository := Wrap(moduleComponentRepository, LocalLayer);
    } else {
      moduleComponentRepository := Wrap(moduleComponentRepository, LockReleasingLayer);
      moduleComponentRepository := Wrap(moduleComponentRepository, OverrideLayer);
      moduleComponentRepository := Wrap(moduleComponentRepository, CachingLayer(GetModuleExtractor(baseRepository)));
    }
    if baseRepository.isDynamicResolveMode {
      moduleComponentRepository := Wrap(moduleComponentRepository, DynamicResolveLayer);
    }
    moduleComponentRepository := Wrap(moduleComponentRepository, InMemoryCacheLayer);
  }

  /** Builds the user resolver chain for the declared repositories. The chain's own
      resolution is outside this model and is given as `chainResolution`. */
  method Create(repositories: seq<ResolutionAwareRepository>, chainResolution: Request -> Reply, cacheLockingManager: CacheLockingManager)
    returns (chain: UserResolverChain, ghost parentLookup: ParentModuleLookupResolver)
    ensures fresh(chain) && fresh(parentLookup)
    ensures chain.repositories == Assemble(repositories, parentLookup)
    ensures parentLookup.dependencyResolver == chain.dependencyResolver
    ensures parentLookup.artifactResolver == chain.artifactResolver
    ensures parentLookup.cacheLockingManager == cacheLockingManager
  {
    chain := new UserResolverChain(chainResolution);
    var parentLookupResolver := new ParentModuleLookupResolver(chain, cacheLockingManager);
    parentLookup := parentLookupResolver;

    var i := 0;
    while i < |repositories|
      invariant 0 <= i <= |repositories|
      invariant chain.repositories == Assemble(repositories[..i], parentLookupResolver)
    {
      var baseRepository := CreateResolver(repositories[i]);
      if baseRepository.ivyAware {
        baseRepository := baseRepository.(contextualized := true);
      }
      if baseRepository.externalResourceResolver {
        baseRepository := baseRepository.(repositoryChain := Some(parentLookupResolver));
      }

      assert baseRepository == Prepare(repositories[i], parentLookupResolver);
      var moduleComponentRepository := WrapLayers(baseRepository);
      assert moduleComponentRepository == Stack(repositories[i], parentLookupResolver);
      chain.Add(moduleComponentRepository);

      assert repositories[..i + 1][..i] == repositories[..i];
      assert repositories[..i + 1][i] == repositories[i];
      i := i + 1;
    }
    assert repositories[..|repositories|] == repositories;
  }
}
