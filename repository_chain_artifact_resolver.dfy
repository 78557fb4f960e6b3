/** Provenance dispatch: artifact requests go back to the repository that produced
    the component, found by the repository id in the component's repository-chain
    source, with that source unwrapped to the delegate the repository understands.
    Artifact sets are looked up locally first and remotely only while the result is
    still empty; a single artifact goes to the repository's own resolveArtifact. */
module ChainArtifactResolution {
  import opened Types
  import opened Locking
  import opened Collaborators

  /** The cast of a module source to a repository-chain source. */
  function RepositorySource(original: ModuleSource): (r: Result<RepositoryChainModuleSource>)
    ensures r.Success? <==> original.Chain?
    ensures r.Success? ==> original == Chain(r.value)
    ensures r.Failure? ==> r.error == NotRepositoryChainSource
  {
    match original
    case Chain(tag) => Success(tag)
    case Opaque(_) => Failure(NotRepositoryChainSource)
  }

  /** The delegate source inside a repository-chain source. */
  function UnpackSource(original: ModuleSource): (r: Result<ModuleSource>)
    ensures r.Success? <==> original.Chain?
    ensures r.Success? ==> original == Chain(RepositoryChainModuleSource(original.tag.repositoryId, r.value))
  {
    match RepositorySource(original)
    case Failure(e) => Failure(e)
    case Success(tag) => Success(tag.delegate)
  }

  /** The component with its repository-chain source replaced by the delegate. */
  function UnpackComponentSource(component: ComponentMetaData): (r: Result<ComponentMetaData>)
    ensures r.Success? <==> component.source.Chain?
    ensures r.Success? ==> r.value.id == component.id
    ensures r.Success? ==> component.source == Chain(RepositoryChainModuleSource(component.source.tag.repositoryId, r.value.source))
  {
    match UnpackSource(component.source)
    case Failure(e) => Failure(e)
    case Success(delegate) => Success(component.WithSource(delegate))
  }

  /** The repository registered under the source's repository id, or the failure
      the lookup raises. */
  function FindSourceRepository<R>(repositories: map<RepositoryId, R>, originalSource: ModuleSource): (r: Result<R>)
    ensures r.Success? <==> originalSource.Chain? && originalSource.tag.repositoryId in repositories
    ensures r.Success? ==> r.value == repositories[originalSource.tag.repositoryId]
    ensures !originalSource.Chain? ==> r == Failure(NotRepositoryChainSource)
    ensures originalSource.Chain? && originalSource.tag.repositoryId !in repositories ==> r == Failure(InvalidRepository)
  {
    match RepositorySource(originalSource)
    case Failure(e) => Failure(e)
    case Success(tag) =>
      if tag.repositoryId in repositories then Success(repositories[tag.repositoryId]) else Failure(InvalidRepository)
  }

  /** Wrapping a delegate source in a repository-chain tag and unwrapping it gives
      back the same delegate and the same repository id. */
  lemma UnpackRoundTrip(repositoryId: RepositoryId, delegate: ModuleSource, component: ComponentMetaData)
    ensures UnpackSource(Chain(RepositoryChainModuleSource(repositoryId, delegate))) == Success(delegate)
    ensures RepositorySource(Chain(RepositoryChainModuleSource(repositoryId, delegate))).value.repositoryId == repositoryId
    ensures UnpackComponentSource(component.WithSource(Chain(RepositoryChainModuleSource(repositoryId, delegate))))
         == Success(component.WithSource(delegate))
  {
  }

  /** After `add`, a source tagged with the repository's id finds that repository,
      even when another one had been stored under the same id; sources tagged with
      other ids find what they found before. */
  lemma FindAfterAdd<R>(repositories: map<RepositoryId, R>, id: RepositoryId, repository: R, source: ModuleSource)
    requires source.Chain?
    ensures source.tag.repositoryId == id ==> FindSourceRepository(repositories[id := repository], source) == Success(repository)
    ensures source.tag.repositoryId != id ==> FindSourceRepository(repositories[id := repository], source) == FindSourceRepository(repositories, source)
  {
  }

  /** What the local-then-remote lookup of an artifact set does, given the result's
      value on entry and the replies of the local and the remote access. */
  datatype Dispatch = Dispatch(remoteCalled: bool, value: Option<Answer>, outcome: Outcome)

  function LocalThenRemote(before: Option<Answer>, local: Reply, remote: Reply): (d: Dispatch)
    ensures d.remoteCalled <==> !local.Fails? && !Apply(before, local).Some?
    ensures local.Found? ==> !d.remoteCalled && d.value == Some(local.answer)
    ensures !d.remoteCalled ==> d.value == Apply(before, local)
    ensures d.remoteCalled ==> d.value == Apply(None, remote) && d.outcome == OutcomeOf(remote)
    ensures local.Fails? ==> d.outcome == OutcomeOf(local)
    ensures !d.remoteCalled && !local.Fails? ==> d.outcome == Completed
  {
    var afterLocal := Apply(before, local);
    if local.Fails? then Dispatch(false, afterLocal, OutcomeOf(local))
    else if afterLocal.Some? then Dispatch(false, afterLocal, Completed)
    else Dispatch(true, Apply(afterLocal, remote), OutcomeOf(remote))
  }

  class RepositoryChainArtifactResolver {
    var repositories: map<RepositoryId, ModuleComponentRepository>

    /** Every repository is stored under its own id. */
    ghost predicate Valid()
      reads this
    {
      forall id :: id in repositories ==> repositories[id].id == id && repositories[id].Valid()
    }

    constructor ()
      ensures Valid() && repositories == map[]
    {
      repositories := map[];
    }

    /** Registers a repository under its id; a later repository with the same id
        replaces the earlier one. */
    method Add(repository: ModuleComponentRepository)
      requires Valid() && repository.Valid()
      modifies this
      ensures Valid()
      ensures repositories == old(repositories)[repository.id := repository]
    {
      repositories := repositories[repository.id := repository];
    }

    /** Local access first; remote access only if the local one left the result
        empty, and never after a local failure. */
    method LocalThenRemoteCall(repository: ModuleComponentRepository, request: Request, result: ResolveResult, manager: CacheLockingManager)
      returns (outcome: Outcome)
      modifies result, manager
      ensures manager.held == old(manager.held)
      ensures var d := LocalThenRemote(old(result.value), repository.localAccess.behaviour(request), repository.remoteAccess.behaviour(request));
        && result.value == d.value
        && outcome == d.outcome
        && manager.events == old(manager.events) + [Invoked(repository.localAccess.endpoint, request, old(manager.held))]
             + (if d.remoteCalled then [Invoked(repository.remoteAccess.endpoint, request, old(manager.held))] else [])
    {
      outcome := repository.localAccess.Invoke(request, result, manager);
      if outcome.Completed? && !result.HasResult() {
        outcome := repository.remoteAccess.Invoke(request, result, manager);
      }
    }

    method ResolveModuleArtifactsByType(component: ComponentMetaData, artifactType: ArtifactType, result: ResolveResult, manager: CacheLockingManager)
      returns (outcome: Outcome)
      requires Valid()
      modifies result, manager
      ensures manager.held == old(manager.held)
      ensures match FindSourceRepository(repositories, component.source)
        case Failure(e) =>
          outcome == Threw(e) && result.value == old(result.value) && manager.events == old(manager.events)
        case Success(repository) =>
          var request := Request.ResolveModuleArtifactsByType(UnpackComponentSource(component).value, artifactType);
          var d := LocalThenRemote(old(result.value), repository.localAccess.behaviour(request), repository.remoteAccess.behaviour(request));
          && result.value == d.value
          && outcome == d.outcome
          && manager.events == old(manager.events) + [Invoked(Endpoint(component.source.tag.repositoryId, LocalAccess), request, old(manager.held))]
               + (if d.remoteCalled then [Invoked(Endpoint(component.source.tag.repositoryId, RemoteAccess), request, old(manager.held))] else [])
    {
      var found := FindSourceRepository(repositories, component.source);
      if found.Failure? {
        return Threw(found.error);
      }
      var repository := found.value;
      var unpackedComponent := UnpackComponentSource(component).value;
      outcome := LocalThenRemoteCall(repository, Request.ResolveModuleArtifactsByType(unpackedComponent, artifactType), result, manager);
    }

    method ResolveModuleArtifactsByUsage(component: ComponentMetaData, usage: ComponentUsage, result: ResolveResult, manager: CacheLockingManager)
      returns (outcome: Outcome)
      requires Valid()
      modifies result, manager
      ensures manager.held == old(manager.held)
      ensures match FindSourceRepository(repositories, component.source)
        case Failure(e) =>
          outcome == Threw(e) && result.value == old(result.value) && manager.events == old(manager.events)
        case Success(repository) =>
          var request := Request.ResolveModuleArtifactsByUsage(UnpackComponentSource(component).value, usage);
          var d := LocalThenRemote(old(result.value), repository.localAccess.behaviour(request), repository.remoteAccess.behaviour(request));
          && result.value == d.value
          && outcome == d.outcome
          && manager.events == old(manager.events) + [Invoked(Endpoint(component.source.tag.repositoryId, LocalAccess), request, old(manager.held))]
               + (if d.remoteCalled then [Invoked(Endpoint(component.source.tag.repositoryId, RemoteAccess), request, old(manager.held))] else [])
    {
      var found := FindSourceRepository(repositories, component.source);
      if found.Failure? {
        return Threw(found.error);
      }
      var repository := found.value;
      var unpackedComponent := UnpackComponentSource(component).value;
      outcome := LocalThenRemoteCall(repository, Request.ResolveModuleArtifactsByUsage(unpackedComponent, usage), result, manager);
    }

    method ResolveArtifact(artifact: ComponentArtifactMetaData, source: ModuleSource, result: ResolveResult, manager: CacheLockingManager)
      returns (outcome: Outcome)
      requires Valid()
      modifies result, manager
      ensures manager.held == old(manager.held)
      ensures match FindSourceRepository(repositories, source)
        case Failure(e) =>
          outcome == Threw(e) && result.value == old(result.value) && manager.events == old(manager.events)
        case Success(repository) =>
          var request := Request.ResolveArtifact(artifact, UnpackSource(source).value);
          && result.value == Apply(old(result.value), repository.artifactAccess.behaviour(request))
          && outcome == OutcomeOf(repository.artifactAccess.behaviour(request))
          && manager.events == old(manager.events) + [Invoked(Endpoint(source.tag.repositoryId, RepositoryEntry), request, old(manager.held))]
    {
      var found := FindSourceRepository(repositories, source);
      if found.Failure? {
        return Threw(found.error);
      }
      var repository := found.value;
      outcome := repository.artifactAccess.Invoke(Request.ResolveArtifact(artifact, UnpackSource(source).value), result, manager);
    }
  }
}
